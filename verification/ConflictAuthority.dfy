/** The engine's single pending conflict and its single-use token. */
module ConflictAuthority {
  import opened Vault
  import opened SyncProtocol

  /** Every call is one critical section of the mutex. */
  datatype Call = Invalidate | Install(token: nat, local: Snapshot, remote: Pair, digest: Option<Digest>) | Take(token: nat)

  /** What is pending, and the tokens of the past in the order they were installed and taken. */
  datatype Authority = Authority(pending: Option<Pending>, installed: seq<nat>, taken: seq<nat>)

  predicate Allowed(a: Authority, c: Call)
  {
    c.Install? ==> c.token !in a.installed
  }

  predicate Succeeds(a: Authority, token: nat)
  {
    a.pending.Some? && a.pending.value.token == token
  }

  function Called(a: Authority, c: Call): (r: Authority)
  {
    match c
    case Invalidate => a.(pending := None)
    case Install(token, local, remote, digest) =>
      Authority(Some(Pending(token, local, remote, digest)), a.installed + [token], a.taken)
    case Take(token) => if Succeeds(a, token) then a.(pending := None, taken := a.taken + [token]) else a
  }

  function After(a: Authority, calls: seq<Call>): (r: Authority)
    decreases |calls|
  {
    if calls == [] then a else Called(After(a, calls[..|calls| - 1]), calls[|calls| - 1])
  }

  predicate FreshTokens(a: Authority, calls: seq<Call>)
  {
    forall i :: 0 <= i < |calls| ==> Allowed(After(a, calls[..i]), calls[i])
  }

  const IDLE: Authority := Authority(None, [], [])

  predicate Distinct(s: seq<nat>)
  {
    forall i, k :: 0 <= i < k < |s| ==> s[i] != s[k]
  }

  /** The pending token is the latest installed and not taken; no token is installed or taken twice. */
  predicate Sound(a: Authority)
  {
    && Distinct(a.installed) && Distinct(a.taken)
    && (forall i :: 0 <= i < |a.taken| ==> a.taken[i] in a.installed)
    && (a.pending.Some? ==>
          a.installed != [] && a.pending.value.token == a.installed[|a.installed| - 1] && a.pending.value.token !in a.taken)
  }

  lemma {:induction false} AlwaysSound(calls: seq<Call>)
    requires FreshTokens(IDLE, calls)
    ensures Sound(After(IDLE, calls))
    decreases |calls|
  {
    if calls != [] {
      var shorter := calls[..|calls| - 1];
      forall i | 0 <= i < |shorter| ensures Allowed(After(IDLE, shorter[..i]), shorter[i]) {
        assert shorter[..i] == calls[..i];
      }
      AlwaysSound(shorter);
      assert Allowed(After(IDLE, calls[..|shorter|]), calls[|shorter|]);
    }
  }

  /** Whether a take succeeds, told by the calls alone: its token was installed, and since then nothing
      was installed, invalidated or taken with it. A take with another token does not matter. */
  predicate Usable(calls: seq<Call>, token: nat)
  {
    exists i :: 0 <= i < |calls| && calls[i].Install? && calls[i].token == token && Undisturbed(calls, i, token)
  }

  predicate Undisturbed(calls: seq<Call>, i: nat, token: nat)
  {
    forall k :: i < k < |calls| ==> calls[k].Take? && calls[k].token != token
  }

  lemma {:induction false} TakeSucceedsIffUsable(calls: seq<Call>, token: nat)
    ensures Succeeds(After(IDLE, calls), token) <==> Usable(calls, token)
    decreases |calls|
  {
    if calls != [] {
      var n := |calls| - 1;
      var shorter, last := calls[..n], calls[n];
      TakeSucceedsIffUsable(shorter, token);
      if last.Install? && last.token == token {
        assert Undisturbed(calls, n, token);
      }
      if last.Take? && last.token != token && Usable(shorter, token) {
        var i :| 0 <= i < |shorter| && shorter[i].Install? && shorter[i].token == token && Undisturbed(shorter, i, token);
        assert calls[i] == shorter[i];
        forall k | i < k < |calls| ensures calls[k].Take? && calls[k].token != token {
          if k < n { assert calls[k] == shorter[k]; }
        }
        assert Undisturbed(calls, i, token);
      }
      if Usable(calls, token) {
        var i :| 0 <= i < |calls| && calls[i].Install? && calls[i].token == token && Undisturbed(calls, i, token);
        if i < n {
          assert shorter[i] == calls[i];
          forall k | i < k < |shorter| ensures shorter[k].Take? && shorter[k].token != token {
            assert shorter[k] == calls[k];
          }
          assert Undisturbed(shorter, i, token);
        }
      }
    }
  }

  /** What a take hands out is exactly what was installed under its token. */
  lemma {:induction false} PendingIsInstalled(calls: seq<Call>, i: nat)
    requires i < |calls| && calls[i].Install? && Undisturbed(calls, i, calls[i].token)
    ensures After(IDLE, calls).pending == Some(Pending(calls[i].token, calls[i].local, calls[i].remote, calls[i].digest))
    decreases |calls|
  {
    if i < |calls| - 1 {
      var shorter := calls[..|calls| - 1];
      assert shorter[i] == calls[i];
      assert Undisturbed(shorter, i, calls[i].token);
      PendingIsInstalled(shorter, i);
      assert calls[|calls| - 1].Take? && calls[|calls| - 1].token != calls[i].token;
    }
  }

  class ConflictAuthority {
    var pending: Option<Pending>
    ghost var history: Authority

    ghost predicate Valid()
      reads this
    {
      pending == history.pending && Sound(history)
    }

    constructor ()
      ensures Valid() && history == IDLE
    {
      pending := None;
      history := IDLE;
    }

    method InvalidatePendingConflict()
      requires Valid()
      modifies this
      ensures Valid() && pending.None? && history == Called(old(history), Invalidate)
    {
      pending := None;
      history := Called(history, Invalidate);
    }

    /** `token` is a fresh random identifier. */
    method Install(token: nat, local: Snapshot, remote: Pair, digest: Option<Digest>)
      requires Valid() && token !in history.installed
      modifies this
      ensures Valid() && history == Called(old(history), Call.Install(token, local, remote, digest))
      ensures pending == Some(Pending(token, local, remote, digest))
    {
      pending := Some(Pending(token, local, remote, digest));
      history := Called(history, Call.Install(token, local, remote, digest));
    }

    /** `None` is the stale-conflict error, and leaves what is pending as it was. */
    method Take(token: nat) returns (conflict: Option<Pending>)
      requires Valid()
      modifies this
      ensures Valid() && history == Called(old(history), Call.Take(token))
      ensures conflict.Some? <==> Succeeds(old(history), token)
      ensures conflict.Some? ==> conflict == old(pending) && pending.None? && token !in old(history.taken)
      ensures conflict.None? ==> pending == old(pending)
    {
      if pending.None? || pending.value.token != token {
        conflict := None;
      } else {
        conflict := pending;
        pending := None;
      }
      history := Called(history, Call.Take(token));
    }
  }
}
