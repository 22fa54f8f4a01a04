/** Context managers as explicit setup and teardown phases around a body of
    work, and what it means for one of them to restore the state it touched. */
module Scope {
  import opened Common
  import opened Environ
  import opened DockerConfig
  import opened Decrypt

  /** Everything outside the process that the helpers consult: the files that
      exist (with what their loader makes of them), the exit status of each
      external command, the answer of the STS service (None when the call
      raises), and the names the two temporary files receive. */
  datatype World = World(
    files: map<string, ParseOutcome>,
    tools: Command -> bool,
    sts: RoleRequest -> Option<Credentials>,
    decryptTemp: string,
    kubeconfigTemp: string)

  /** The process-wide state the helpers mutate. */
  datatype State = State(env: Env, docker: DockerFile)

  /** How the body of the `with` statement ends: the environment it leaves and
      whether it returned or raised. */
  datatype BodyEnd = BodyEnd(env: Env, exit: Exit)

  /** The body of the `with` statement, as a transformer of the environment. */
  type Body = Env -> BodyEnd

  /** One use of an authentication helper by a `with` statement: the final state, the external commands run
      in order, the environment the body was entered with (None when the body
      never ran), and how the `with` statement ended. */
  datatype Outcome = Outcome(st: State, cmds: seq<Command>, entered: Option<Env>, exit: Exit)

  /** An exception raised before the `yield`: the body does not run. */
  function Raise(st: State, cmds: seq<Command>, e: Error): Outcome
  {
    Outcome(st, cmds, None, Raised(e))
  }

  /** The `yield`: the body runs on the current environment. */
  function Enter(st: State, cmds: seq<Command>, body: Body): Outcome
  {
    var end := body(st.env);
    Outcome(State(end.env, st.docker), cmds, Some(st.env), end.exit)
  }

  /** A `finally` clause restoring `frame` once `inner` has ended; an exception
      the clause raises replaces the one `inner` ended with. */
  function Finally(inner: Outcome, frame: Frame): (o: Outcome)
    ensures o.cmds == inner.cmds && o.entered == inner.entered && o.st.docker == inner.st.docker
    ensures Close(inner.st.env, frame).failure.None? ==> o.exit == inner.exit
    ensures Close(inner.st.env, frame).failure.Some? ==> o.exit == Raised(Close(inner.st.env, frame).failure.value)
  {
    var t := Close(inner.st.env, frame);
    Outcome(inner.st.(env := t.env), inner.cmds, inner.entered,
            if t.failure.Some? then Raised(t.failure.value) else inner.exit)
  }

  /** What a `finally` clause does to the ending: with every saved variable
      still set it restores their snapshots and re-raises (or returns) as the
      inner outcome did; otherwise the KeyError of a saved variable replaces
      that ending. An unassigned snapshot local raises UnboundLocalError and
      changes nothing. Commands, entry and docker file are never affected. */
  lemma FinallyEnding(o: Outcome, frame: Frame)
    requires frame.Bound? ==> DistinctKeys(frame.saved)
    ensures var f := Finally(o, frame);
            && f.cmds == o.cmds && f.entered == o.entered && f.st.docker == o.st.docker
            && (frame.Unbound? ==> f.st == o.st && f.exit == Raised(UnboundLocal(frame.local)))
            && (frame.Bound? && KeysOf(frame.saved) <= o.st.env.Keys ==>
                  && f.exit == o.exit
                  && forall s :: s in frame.saved ==> Lookup(f.st.env, s.key) == s.prior)
            && (frame.Bound? && !(KeysOf(frame.saved) <= o.st.env.Keys) ==>
                  f.exit.Raised? && f.exit.error.KeyMissing? && f.exit.error.key in KeysOf(frame.saved))
            && (frame.Bound? ==> f.st.env - KeysOf(frame.saved) == o.st.env - KeysOf(frame.saved))
  {
    if frame.Bound? {
      RestoreAllRestores(o.st.env, frame.saved);
      var t := RestoreAll(o.st.env, frame.saved);
      if t.failure.Some? {
        var s :| s in frame.saved && t.failure == Some(KeyMissing(s.key));
        assert s.key in KeysOf(frame.saved);
      }
    }
  }

  /** The part of a helper with a `finally` clause before its `yield`: an exception raised
      before the `try` (nothing to undo), or the state reached inside the `try`
      with the snapshot locals the `finally` will read and, when setup raised
      part-way, the exception. */
  datatype Setup =
    | Refused(error: Error)
    | Acquired(st: State, cmds: seq<Command>, frame: Frame, failure: Option<Error>)

  /** Setup, then the body unless setup raised, then the `finally` clause. */
  function Run(st0: State, setup: Setup, body: Body): (o: Outcome)
    ensures setup.Refused? ==> o == Raise(st0, [], setup.error)
    ensures o.entered.Some? <==> setup.Acquired? && setup.failure.None?
    ensures o.entered.Some? ==> o.entered == Some(setup.st.env)
    ensures setup.Acquired? ==> o.cmds == setup.cmds && o.st.docker == setup.st.docker
  {
    match setup
    case Refused(e) => Raise(st0, [], e)
    case Acquired(st, cmds, frame, failure) =>
      if failure.Some? then Finally(Raise(st, cmds, failure.value), frame)
      else Finally(Enter(st, cmds, body), frame)
  }

  /** The body never unsets any of `keys` that was set when it started. */
  ghost predicate KeepsPresent(body: Body, keys: set<string>)
  {
    forall e: Env :: e.Keys * keys <= body(e).env.Keys
  }

  /** Outside `keys`, only the body changed the environment: it was entered
      with the starting values there, and the final environment is what the
      body left (or the starting one when the body never ran). */
  predicate Confined(o: Outcome, st0: State, keys: set<string>, body: Body)
  {
    if o.entered.None? then o.st.env - keys == st0.env - keys
    else && o.entered.value - keys == st0.env - keys
         && o.st.env - keys == body(o.entered.value).env - keys
  }

  /** `Confined`, and every variable in `keys` reads again as it did before the
      call: present with the same value, or absent. */
  predicate Restores(o: Outcome, st0: State, keys: set<string>, body: Body)
  {
    && Confined(o, st0, keys, body)
    && forall k :: k in keys ==> Lookup(o.st.env, k) == Lookup(st0.env, k)
  }

  /** Commands run one after another and stop at the first that fails: every
      command but the last succeeded, all of them did when the body ran, and
      when setup raised because of a command, that command is the last one and
      its failure is the exception the statement ends with. */
  predicate StopsAtFailure(o: Outcome, tools: Command -> bool)
  {
    && (forall i :: 0 <= i < |o.cmds| - 1 ==> tools(o.cmds[i]))
    && (o.entered.Some? ==> forall i :: 0 <= i < |o.cmds| ==> tools(o.cmds[i]))
    && (o.entered.None? && |o.cmds| > 0 && !tools(o.cmds[|o.cmds| - 1]) ==>
          o.exit == Raised(ToolFailed(o.cmds[|o.cmds| - 1])))
    && (o.entered.None? && o.exit.Raised? && o.exit.error.ToolFailed? ==>
          |o.cmds| > 0 && o.cmds[|o.cmds| - 1] == o.exit.error.command && !tools(o.exit.error.command))
  }

  /** The snapshot locals `saved` were taken from `st0`, one per variable of
      `keys`, and reaching `st1` set those variables and nothing else. */
  predicate SoundFrame(st0: State, st1: State, saved: seq<Saved>, keys: set<string>)
  {
    && DistinctKeys(saved)
    && KeysOf(saved) == keys
    && (forall s :: s in saved ==> s.prior == Lookup(st0.env, s.key))
    && st1.env - keys == st0.env - keys
    && keys <= st1.env.Keys
  }

  /** What a setup phase may have done: raised before the `try`; raised inside
      it before any snapshot was taken, having changed and run nothing; or taken sound
      snapshots of `keys`. */
  predicate SoundSetup(st0: State, setup: Setup, keys: set<string>)
  {
    match setup
    case Refused(_) => true
    case Acquired(st, cmds, Unbound(_), failure) => st.env == st0.env && cmds == [] && failure.Some?
    case Acquired(st, _, Bound(saved), _) => SoundFrame(st0, st, saved, keys)
  }

  /** A `finally` clause restoring sound snapshots of `outer` around an inner
      outcome confined to the disjoint set `inner`: when the body keeps the
      outer variables set, they read as before the call, the inner ones as the
      inner outcome left them, and the exception (if any) is the inner one. */
  lemma FinallyRestores(st0: State, st1: State, saved: seq<Saved>, outer: set<string>,
                        o: Outcome, inner: set<string>, body: Body)
    requires SoundFrame(st0, st1, saved, outer)
    requires outer !! inner
    requires Confined(o, st1, inner, body)
    requires KeepsPresent(body, outer)
    ensures var f := Finally(o, Bound(saved));
            && f.exit == o.exit
            && Confined(f, st0, outer + inner, body)
            && (forall k :: k in outer ==> Lookup(f.st.env, k) == Lookup(st0.env, k))
            && (forall k :: k in inner ==> Lookup(f.st.env, k) == Lookup(o.st.env, k))
  {
    var f := Finally(o, Bound(saved));
    var both := outer + inner;
    // Every outer variable is still set when the `finally` clause runs.
    assert outer <= o.st.env.Keys by {
      forall k | k in outer ensures k in o.st.env {
        assert k in st1.env - inner;
        if o.entered.None? {
          assert k in o.st.env - inner;
        } else {
          var e := o.entered.value;
          assert k in e - inner;
          assert k in e.Keys * outer;
          assert k in body(e).env - inner;
          assert k in o.st.env - inner;
        }
      }
    }
    RestoreAllRestores(o.st.env, saved);
    var t := RestoreAll(o.st.env, saved);
    assert f.st.env == t.env;
    forall k | k in outer ensures Lookup(f.st.env, k) == Lookup(st0.env, k) {
      var s :| s in saved && s.key == k;
    }
    forall k | k in inner ensures Lookup(f.st.env, k) == Lookup(o.st.env, k) {
      assert Lookup(t.env - outer, k) == Lookup(o.st.env - outer, k);
    }
    MinusMonotone(t.env, o.st.env, outer, both);
    MinusMonotone(st1.env, st0.env, outer, both);
    if o.entered.None? {
      MinusMonotone(o.st.env, st1.env, inner, both);
    } else {
      var e := o.entered.value;
      MinusMonotone(e, st1.env, inner, both);
      MinusMonotone(o.st.env, body(e).env, inner, both);
    }
  }

  /** Whatever the body does, a sound setup and its `finally` clause change
      nothing outside `keys` except through the body. */
  lemma RunConfined(st0: State, setup: Setup, keys: set<string>, body: Body)
    requires SoundSetup(st0, setup, keys)
    ensures Confined(Run(st0, setup, body), st0, keys, body)
  {
    var o := Run(st0, setup, body);
    match setup
    case Refused(_) =>
    case Acquired(st, cmds, frame, failure) =>
      var inner := if failure.Some? then Raise(st, cmds, failure.value) else Enter(st, cmds, body);
      assert o == Finally(inner, frame);
      match frame
      case Unbound(_) =>
      case Bound(saved) =>
        var t := RestoreAll(inner.st.env, saved);
        if inner.entered.None? {
          MinusMonotone(t.env, st.env, keys, keys);
        }
    }

  /** With a sound setup and a body that keeps `keys` set, the `finally` clause
      puts every variable of `keys` back as it was before the call, whether the
      body returned or raised, and whether setup raised after its snapshots;
      and the statement ends the way setup or the body did. */
  lemma RunRestores(st0: State, setup: Setup, keys: set<string>, body: Body)
    requires SoundSetup(st0, setup, keys)
    requires KeepsPresent(body, keys)
    ensures Restores(Run(st0, setup, body), st0, keys, body)
    ensures var o := Run(st0, setup, body);
            match setup
            case Refused(e) => o == Raise(st0, [], e)
            case Acquired(_, _, Unbound(local), _) => o.exit == Raised(UnboundLocal(local)) && o.entered.None?
            case Acquired(_, _, Bound(_), Some(e)) => o.exit == Raised(e) && o.entered.None?
            case Acquired(st, _, Bound(_), None) => o.entered == Some(st.env) && o.exit == body(st.env).exit
  {
    var o := Run(st0, setup, body);
    match setup
    case Refused(_) =>
    case Acquired(st, cmds, Unbound(_), failure) =>
    case Acquired(st, cmds, Bound(saved), failure) =>
      var inner := if failure.Some? then Raise(st, cmds, failure.value) else Enter(st, cmds, body);
      assert Confined(inner, st, {}, body);
      FinallyRestores(st0, st, saved, keys, inner, {}, body);
      assert keys + {} == keys;
  }

  /** A sound setup's `finally` clause never hides which command failed. */
  lemma RunStopsAtFailure(st0: State, setup: Setup, keys: set<string>, body: Body, tools: Command -> bool)
    requires SoundSetup(st0, setup, keys)
    requires setup.Refused? ==> !setup.error.ToolFailed?
    requires setup.Acquired? && setup.failure.None? ==> forall i :: 0 <= i < |setup.cmds| ==> tools(setup.cmds[i])
    requires setup.Acquired? && setup.failure.Some? ==>
               StopsAtFailure(Raise(setup.st, setup.cmds, setup.failure.value), tools)
    ensures StopsAtFailure(Run(st0, setup, body), tools)
  {
    match setup
    case Refused(_) =>
    case Acquired(st, cmds, frame, failure) =>
      if failure.Some? && frame.Bound? {
        RestoreAllRestores(st.env, frame.saved);
      }
  }

  /** The setup of a strategy that mutates no process state: the commands run
      so far, and the exception that stopped them. */
  datatype Steps = Steps(cmds: seq<Command>, failure: Option<Error>)

  /** Runs one more command unless an earlier step raised. */
  function AndThen(s: Steps, c: Command, tools: Command -> bool): (r: Steps)
    ensures s.failure.Some? ==> r == s
    ensures s.failure.None? ==> r.cmds == s.cmds + [c] && (r.failure.None? <==> tools(c))
    ensures s.failure.None? && !tools(c) ==> r.failure == Some(ToolFailed(c))
  {
    if s.failure.Some? then s
    else Steps(s.cmds + [c], if tools(c) then None else Some(ToolFailed(c)))
  }

  /** The `yield` after such a setup, when it did not raise. */
  function Yield(st: State, s: Steps, body: Body): Outcome
  {
    if s.failure.Some? then Raise(st, s.cmds, s.failure.value) else Enter(st, s.cmds, body)
  }

  /** `StopsAtFailure`, for steps that have not reached the body yet. */
  predicate StepsStop(s: Steps, tools: Command -> bool)
  {
    && (forall i :: 0 <= i < |s.cmds| - 1 ==> tools(s.cmds[i]))
    && (s.failure.None? ==> forall i :: 0 <= i < |s.cmds| ==> tools(s.cmds[i]))
    && (|s.cmds| > 0 && !tools(s.cmds[|s.cmds| - 1]) ==> s.failure == Some(ToolFailed(s.cmds[|s.cmds| - 1])))
    && (s.failure.Some? && s.failure.value.ToolFailed? ==>
          |s.cmds| > 0 && s.cmds[|s.cmds| - 1] == s.failure.value.command && !tools(s.failure.value.command))
  }

  lemma AndThenStops(s: Steps, c: Command, tools: Command -> bool)
    requires StepsStop(s, tools)
    ensures StepsStop(AndThen(s, c, tools), tools)
  {
  }

  /** A strategy that mutates nothing leaves the environment to the body and
      keeps the docker configuration, and reports the command that failed. */
  lemma YieldConfined(st: State, s: Steps, body: Body, tools: Command -> bool)
    requires StepsStop(s, tools)
    ensures Restores(Yield(st, s, body), st, {}, body)
    ensures Yield(st, s, body).st.docker == st.docker
    ensures StopsAtFailure(Yield(st, s, body), tools)
  {
  }

  /** A last command after earlier steps, then the `yield`: as for
      `YieldConfined`, and the body runs exactly after the earlier steps and
      the last command all succeeded. */
  lemma ThenYield(st: State, s: Steps, c: Command, body: Body, tools: Command -> bool)
    requires StepsStop(s, tools)
    ensures var o := Yield(st, AndThen(s, c, tools), body);
            && Restores(o, st, {}, body)
            && o.st.docker == st.docker
            && StopsAtFailure(o, tools)
            && (o.entered.Some? <==> s.failure.None? && tools(c))
            && (o.entered.Some? ==> o.cmds == s.cmds + [c])
  {
    AndThenStops(s, c, tools);
    YieldConfined(st, AndThen(s, c, tools), body, tools);
  }
}
