/** The process environment and the snapshot/restore discipline built on
    `unset_env_var`. */
module Environ {
  import opened Common

  type Env = map<string, string>

  /** What `os.environ.get(key, None)` returns: the value, or None when unset. */
  type Snapshot = Option<string>

  function Lookup(env: Env, key: string): Snapshot
  {
    if key in env then Some(env[key]) else None
  }

  /** Two environments are equal when every variable reads the same in both. */
  lemma LookupExtensional(a: Env, b: Env)
    requires forall k :: Lookup(a, k) == Lookup(b, k)
    ensures a == b
  {
    forall k | k in a
      ensures k in b && a[k] == b[k]
    {
      assert Lookup(a, k) == Lookup(b, k);
    }
    forall k | k in b
      ensures k in a
    {
      assert Lookup(a, k) == Lookup(b, k);
    }
  }

  /** Agreement outside a set of variables implies agreement outside any larger set. */
  lemma MinusMonotone(a: Env, b: Env, small: set<string>, large: set<string>)
    requires small <= large
    requires a - small == b - small
    ensures a - large == b - large
  {
    forall k ensures Lookup(a - large, k) == Lookup(b - large, k) {
      if k !in large {
        assert Lookup(a - small, k) == Lookup(b - small, k);
      }
    }
    LookupExtensional(a - large, b - large);
  }

  /** Setting a variable is invisible outside any set that contains it. */
  lemma MinusUpdate(env: Env, key: string, value: string, keys: set<string>)
    requires key in keys
    ensures env[key := value] - keys == env - keys
  {
    forall k ensures Lookup(env[key := value] - keys, k) == Lookup(env - keys, k) {
    }
    LookupExtensional(env[key := value] - keys, env - keys);
  }

  /** `unset_env_var`: delete the variable (a KeyError when it is not set), then
      put the snapshot value back when there was one. */
  function UnsetEnvVar(env: Env, key: string, previous: Snapshot): (r: Result<Env>)
    ensures r.Ok? <==> key in env
    ensures r.Err? ==> r.error == KeyMissing(key)
    ensures r.Ok? ==> Lookup(r.value, key) == previous
    ensures r.Ok? ==> r.value - {key} == env - {key}
  {
    if key !in env then Err(KeyMissing(key))
    else
      var cleared := env - {key};
      if previous.Some? then Ok(cleared[key := previous.value]) else Ok(cleared)
  }

  /** The acquisition half of a one-variable scope: take the snapshot, then set. */
  function SetEnvVar(env: Env, key: string, value: string): (r: (Env, Snapshot))
    ensures Lookup(r.0, key) == Some(value)
    ensures r.0 - {key} == env - {key}
  {
    (env[key := value], Lookup(env, key))
  }

  /** Teardown after setup, with any work in between that keeps the variable
      set, puts the variable back as it was before setup and leaves every other
      variable as the work left it. */
  lemma SingleScopeRestores(env: Env, key: string, value: string, work: Env -> Env)
    requires key in work(SetEnvVar(env, key, value).0)
    ensures var (during, snap) := SetEnvVar(env, key, value);
            var r := UnsetEnvVar(work(during), key, snap);
            && r.Ok?
            && Lookup(r.value, key) == Lookup(env, key)
            && r.value - {key} == work(during) - {key}
  {
  }

  /** With no work in between, teardown undoes setup exactly. */
  lemma SingleScopeRoundTrip(env: Env, key: string, value: string)
    ensures var (during, snap) := SetEnvVar(env, key, value);
            UnsetEnvVar(during, key, snap) == Ok(env)
  {
    var (during, snap) := SetEnvVar(env, key, value);
    var r := UnsetEnvVar(during, key, snap);
    forall k
      ensures Lookup(r.value, k) == Lookup(env, k)
    {
      if k != key {
        assert Lookup(r.value - {key}, k) == Lookup(env - {key}, k);
      }
    }
    LookupExtensional(r.value, env);
  }

  /** One snapshot local: the variable and what it held before the scope. */
  datatype Saved = Saved(key: string, prior: Snapshot)

  function KeysOf(saved: seq<Saved>): set<string>
  {
    set s | s in saved :: s.key
  }

  predicate DistinctKeys(saved: seq<Saved>)
  {
    forall i, j :: 0 <= i < j < |saved| ==> saved[i].key != saved[j].key
  }

  predicate DistinctStrings(keys: seq<string>)
  {
    forall i, j :: 0 <= i < j < |keys| ==> keys[i] != keys[j]
  }

  /** Snapshots of several variables, all taken from one environment. */
  function Capture(env: Env, keys: seq<string>): (r: seq<Saved>)
    ensures |r| == |keys|
    ensures forall i :: 0 <= i < |keys| ==> r[i] == Saved(keys[i], Lookup(env, keys[i]))
  {
    if |keys| == 0 then [] else [Saved(keys[0], Lookup(env, keys[0]))] + Capture(env, keys[1..])
  }

  /** Setting several variables one after another. */
  function AssignAll(env: Env, keys: seq<string>, values: seq<string>): (r: Env)
    requires |keys| == |values|
    requires DistinctStrings(keys)
    ensures forall i :: 0 <= i < |keys| ==> Lookup(r, keys[i]) == Some(values[i])
    ensures r - (set k | k in keys) == env - (set k | k in keys)
    decreases |keys|
  {
    if |keys| == 0 then env
    else
      var first := env[keys[0] := values[0]];
      var rest := AssignAll(first, keys[1..], values[1..]);
      var later := set k | k in keys[1..];
      assert forall i :: 1 <= i < |keys| ==> keys[i] == keys[1..][i - 1];
      assert (set k | k in keys) == {keys[0]} + later;
      assert keys[0] !in later;
      assert Lookup(rest - later, keys[0]) == Lookup(first - later, keys[0]);
      MinusMonotone(rest, first, later, set k | k in keys);
      MinusUpdate(env, keys[0], values[0], set k | k in keys);
      rest
  }

  /** What a sequence of `unset_env_var` calls leaves behind: the environment,
      and the KeyError that stopped the sequence, if one did. */
  datatype Teardown = Teardown(env: Env, failure: Option<Error>)

  /** Restores each saved variable in order; the first KeyError ends the
      sequence, so the variables after it are not restored. */
  function RestoreAll(env: Env, saved: seq<Saved>): (r: Teardown)
    ensures r.env - KeysOf(saved) == env - KeysOf(saved)
    ensures r.failure.Some? ==> exists s :: s in saved && r.failure == Some(KeyMissing(s.key))
    decreases |saved|
  {
    if |saved| == 0 then Teardown(env, None)
    else
      match UnsetEnvVar(env, saved[0].key, saved[0].prior)
      case Err(e) => Teardown(env, Some(e))
      case Ok(env') =>
        var r := RestoreAll(env', saved[1..]);
        assert KeysOf(saved) == {saved[0].key} + KeysOf(saved[1..]) by {
          assert forall s :: s in saved <==> s == saved[0] || s in saved[1..];
        }
        assert r.failure.Some? ==> exists s :: s in saved && r.failure == Some(KeyMissing(s.key)) by {
          if r.failure.Some? {
            var s :| s in saved[1..] && r.failure == Some(KeyMissing(s.key));
            assert s in saved;
          }
        }
        MinusMonotone(r.env, env', KeysOf(saved[1..]), KeysOf(saved));
        MinusMonotone(env', env, {saved[0].key}, KeysOf(saved));
        r
  }

  /** Restoring distinct variables succeeds exactly when every one of them is
      still set; on success each reads its snapshot again. */
  lemma {:induction false} RestoreAllRestores(env: Env, saved: seq<Saved>)
    requires DistinctKeys(saved)
    ensures RestoreAll(env, saved).failure.None? <==> KeysOf(saved) <= env.Keys
    ensures RestoreAll(env, saved).failure.None? ==>
              forall s :: s in saved ==> Lookup(RestoreAll(env, saved).env, s.key) == s.prior
    decreases |saved|
  {
    if |saved| > 0 {
      assert KeysOf(saved) == {saved[0].key} + KeysOf(saved[1..]) by {
        assert forall s :: s in saved <==> s == saved[0] || s in saved[1..];
      }
      var head := saved[0];
      var u := UnsetEnvVar(env, head.key, head.prior);
      if u.Ok? {
        var tail := saved[1..];
        assert DistinctKeys(tail);
        RestoreAllRestores(u.value, tail);
        assert head.key !in KeysOf(tail) by {
          forall s | s in tail ensures s.key != head.key {
            var j :| 0 <= j < |tail| && tail[j] == s;
            assert saved[j + 1] == s;
          }
        }
        assert KeysOf(tail) <= u.value.Keys <==> KeysOf(tail) <= env.Keys by {
          forall k | k in KeysOf(tail) ensures k in u.value <==> k in env {
            assert k in u.value - {head.key} <==> k in env - {head.key};
          }
        }
        var r := RestoreAll(u.value, tail);
        assert RestoreAll(env, saved) == r;
        if r.failure.None? {
          forall s | s in saved ensures Lookup(r.env, s.key) == s.prior {
            if s != head {
              assert s in tail;
            } else {
              assert head.key !in KeysOf(tail);
              assert Lookup(r.env - KeysOf(tail), head.key) == Lookup(u.value - KeysOf(tail), head.key);
            }
          }
        }
      }
    }
  }

  /** The order in which distinct variables are restored does not matter. */
  lemma RestoreOrderIrrelevant(env: Env, saved: seq<Saved>, other: seq<Saved>)
    requires DistinctKeys(saved) && DistinctKeys(other)
    requires multiset(saved) == multiset(other)
    requires KeysOf(saved) <= env.Keys
    ensures RestoreAll(env, saved) == RestoreAll(env, other)
  {
    assert forall s :: s in saved <==> s in other by {
      forall s ensures s in saved <==> s in other {
        assert s in saved <==> s in multiset(saved);
        assert s in other <==> s in multiset(other);
      }
    }
    assert KeysOf(saved) == KeysOf(other);
    RestoreAllRestores(env, saved);
    RestoreAllRestores(env, other);
    var a := RestoreAll(env, saved).env;
    var b := RestoreAll(env, other).env;
    forall k ensures Lookup(a, k) == Lookup(b, k) {
      if k in KeysOf(saved) {
        var s :| s in saved && s.key == k;
      } else {
        assert Lookup(a - KeysOf(saved), k) == Lookup(b - KeysOf(other), k);
      }
    }
    LookupExtensional(a, b);
  }

  /** The snapshot locals a `finally` clause reads: bound to the snapshots taken,
      or never bound because setup raised before taking them. */
  datatype Frame = Bound(saved: seq<Saved>) | Unbound(local: string)

  /** Runs the restoring part of a `finally` clause. */
  function Close(env: Env, frame: Frame): (r: Teardown)
    ensures frame.Unbound? ==> r == Teardown(env, Some(UnboundLocal(frame.local)))
    ensures frame.Bound? ==> r.env - KeysOf(frame.saved) == env - KeysOf(frame.saved)
  {
    match frame
    case Bound(saved) => RestoreAll(env, saved)
    case Unbound(local) => Teardown(env, Some(UnboundLocal(local)))
  }

  /** Snapshot, assignment and restoration of distinct variables compose to the
      identity on those variables, whatever the work in between did to the rest,
      as long as it left them set. */
  lemma CaptureAssignRestore(env: Env, keys: seq<string>, values: seq<string>, work: Env -> Env)
    requires |keys| == |values| && DistinctStrings(keys)
    requires (set k | k in keys) <= work(AssignAll(env, keys, values)).Keys
    ensures var during := work(AssignAll(env, keys, values));
            var r := RestoreAll(during, Capture(env, keys));
            && r.failure.None?
            && (forall i :: 0 <= i < |keys| ==> Lookup(r.env, keys[i]) == Lookup(env, keys[i]))
            && r.env - (set k | k in keys) == during - (set k | k in keys)
  {
    var saved := Capture(env, keys);
    assert KeysOf(saved) == set k | k in keys by {
      forall k | k in keys ensures k in KeysOf(saved) {
        var i :| 0 <= i < |keys| && keys[i] == k;
        assert saved[i] in saved;
      }
      forall s | s in saved ensures s.key in keys {
        var i :| 0 <= i < |saved| && saved[i] == s;
      }
    }
    assert DistinctKeys(saved);
    var during := work(AssignAll(env, keys, values));
    RestoreAllRestores(during, saved);
    forall i | 0 <= i < |keys| ensures Lookup(RestoreAll(during, saved).env, keys[i]) == Lookup(env, keys[i]) {
      assert saved[i] in saved;
    }
  }
}
