/**
 * The handler run once per request, one request after another, on the same
 * process. The log level and the working directory are process-wide, so what
 * one request does to them is what the next one starts from; the call trace
 * and the written responses only ever grow.
 */
module Serving {
  import opened Server

  /** A request together with what the collaborators report while it is handled. */
  datatype Exchange = Exchange(req: Request, env: Oracle)

  predicate AllAdmissible(xs: seq<Exchange>) {
    forall x <- xs :: Admissible(x.req)
  }

  /** The process after handling `xs` in order, starting from `p`. */
  function Serve(p: Proc, xs: seq<Exchange>): (q: Proc)
    requires AllAdmissible(xs)
    // calls made and responses written are never taken back
    ensures p.trace <= q.trace && p.written <= q.written
    decreases |xs|
  {
    if xs == [] then p else Serve(Handle(p, xs[0].req, xs[0].env), xs[1..])
  }

  /** Serving `xs` and then `ys` is serving `xs + ys`. */
  lemma {:induction false} ServeSplit(p: Proc, xs: seq<Exchange>, ys: seq<Exchange>)
    requires AllAdmissible(xs) && AllAdmissible(ys)
    ensures AllAdmissible(xs + ys)
    ensures Serve(p, xs + ys) == Serve(Serve(p, xs), ys)
    decreases |xs|
  {
    if xs != [] {
      assert (xs + ys)[1..] == xs[1..] + ys;
      ServeSplit(Handle(p, xs[0].req, xs[0].env), xs[1..], ys);
    } else {
      assert xs + ys == ys;
    }
  }

  predicate AnyDebug(xs: seq<Exchange>) {
    exists i :: 0 <= i < |xs| && xs[i].req.debug != ""
  }

  /**
   * The log level is raised to debug by the first debug request and never
   * lowered again; without one it stays where it was.
   */
  lemma {:induction false} ServeLogLevel(p: Proc, xs: seq<Exchange>)
    requires AllAdmissible(xs)
    ensures Serve(p, xs).logLevel == if AnyDebug(xs) then DebugLevel else p.logLevel
    decreases |xs|
  {
    if xs != [] {
      var p1 := Handle(p, xs[0].req, xs[0].env);
      ServeLogLevel(p1, xs[1..]);
      if AnyDebug(xs[1..]) {
        var i :| 0 <= i < |xs[1..]| && xs[1..][i].req.debug != "";
        assert xs[i + 1].req.debug != "";
      }
    }
  }

  /** Once a debug request has been handled, no later request lowers the level again. */
  lemma DebugLevelSticks(p: Proc, xs: seq<Exchange>, ys: seq<Exchange>)
    requires AllAdmissible(xs) && AllAdmissible(ys)
    requires AnyDebug(xs)
    ensures AllAdmissible(xs + ys)
    ensures Serve(p, xs + ys).logLevel == DebugLevel
  {
    ServeSplit(p, xs, ys);
    ServeLogLevel(p, xs);
    ServeLogLevel(Serve(p, xs), ys);
  }

  predicate AnyChdir(xs: seq<Exchange>) {
    exists i :: 0 <= i < |xs| && ReachesChdir(xs[i].req, xs[i].env) && xs[i].env.chdir.None?
  }

  /**
   * The working directory ends up at the root directory if some request
   * changed it there; no other request moves it, so otherwise it stays where
   * it was.
   */
  lemma {:induction false} ServeWorkingDir(p: Proc, xs: seq<Exchange>)
    requires AllAdmissible(xs)
    ensures Serve(p, xs).cwd == if AnyChdir(xs) then RootDir else p.cwd
    decreases |xs|
  {
    if xs != [] {
      var p1 := Handle(p, xs[0].req, xs[0].env);
      ServeWorkingDir(p1, xs[1..]);
      if AnyChdir(xs[1..]) {
        var i :| 0 <= i < |xs[1..]| && ReachesChdir(xs[1..][i].req, xs[1..][i].env) && xs[1..][i].env.chdir.None?;
        assert ReachesChdir(xs[i + 1].req, xs[i + 1].env) && xs[i + 1].env.chdir.None?;
      }
    }
  }

  /** Every status ever written is 200, 400 or 500. */
  lemma {:induction false} ServeStatuses(p: Proc, xs: seq<Exchange>)
    requires AllAdmissible(xs)
    requires forall r <- p.written :: IsWrittenStatus(r.status)
    ensures forall r <- Serve(p, xs).written :: IsWrittenStatus(r.status)
    decreases |xs|
  {
    if xs != [] {
      ServeStatuses(Handle(p, xs[0].req, xs[0].env), xs[1..]);
    }
  }

  /** How many calls of phase `k` the trace holds. */
  function Count(t: seq<Call>, k: Step): nat {
    if t == [] then 0 else (if t[0].Step() == k then 1 else 0) + Count(t[1..], k)
  }

  lemma {:induction false} CountAppend(a: seq<Call>, b: seq<Call>, k: Step)
    ensures Count(a + b, k) == Count(a, k) + Count(b, k)
    decreases |a|
  {
    if a != [] {
      assert (a + b)[1..] == a[1..] + b;
      CountAppend(a[1..], b, k);
    } else {
      assert a + b == b;
    }
  }

  /**
   * Within one request: it either decodes its body or toggles logging, never
   * both; it builds at most once; and it pushes only after a build.
   */
  lemma CallCounts(cwd: string, req: Request, env: Oracle)
    requires Admissible(req)
    ensures var t := Calls(cwd, req, env);
      && Count(t, Decoding) + Count(t, Logging) == 1
      && Count(t, Build) <= 1
      && Count(t, Push) <= Count(t, Build)
  {
    var t := Calls(cwd, req, env);
    forall k: Step ensures Count(t, k) == if exists c <- t :: c.Step() == k then 1 else 0 {
      CountDistinct(t, k);
    }
    if exists c <- t :: c.Step() == Push {
      assert t[3].Step() == Build;
    }
  }

  /** In a trace whose phases strictly increase, each phase occurs at most once. */
  lemma {:induction false} CountDistinct(t: seq<Call>, k: Step)
    requires forall i, j :: 0 <= i < j < |t| ==> t[i].Step().Index() < t[j].Step().Index()
    ensures Count(t, k) == if exists c <- t :: c.Step() == k then 1 else 0
    decreases |t|
  {
    if t != [] {
      CountDistinct(t[1..], k);
      if t[0].Step() == k {
        forall c | c in t[1..] ensures c.Step() != k {
          var j :| 0 <= j < |t[1..]| && t[1..][j] == c;
          assert t[0].Step().Index() < t[j + 1].Step().Index();
        }
      } else if exists c <- t :: c.Step() == k {
        var c :| c in t && c.Step() == k;
        assert c in t[1..];
      }
    }
  }

  /**
   * Across any number of requests: each one adds exactly one decode or one
   * logging toggle, at most one build, and never more pushes than builds.
   */
  lemma {:induction false} ServeCounts(p: Proc, xs: seq<Exchange>)
    requires AllAdmissible(xs)
    ensures var q := Serve(p, xs);
      && Count(q.trace, Decoding) + Count(q.trace, Logging) == Count(p.trace, Decoding) + Count(p.trace, Logging) + |xs|
      && Count(q.trace, Build) <= Count(p.trace, Build) + |xs|
      && Count(q.trace, Push) - Count(p.trace, Push) <= Count(q.trace, Build) - Count(p.trace, Build)
    decreases |xs|
  {
    if xs != [] {
      var t := Calls(p.cwd, xs[0].req, xs[0].env);
      var p1 := Handle(p, xs[0].req, xs[0].env);
      CallCounts(p.cwd, xs[0].req, xs[0].env);
      forall k: Step ensures Count(p1.trace, k) == Count(p.trace, k) + Count(t, k) {
        CountAppend(p.trace, t, k);
      }
      ServeCounts(p1, xs[1..]);
    }
  }
}
