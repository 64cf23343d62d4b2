/**
 * The re-login-and-retry policy of `api_call_login` (and of the copy of it
 * inside `update`): run the operation; if it raises, call `login()` on the
 * shared session and run the operation once more, letting a second exception,
 * or one from `login()` itself, propagate.
 */
module Retry {
  import opened Wrappers
  import opened Cloud

  /**
   * What one run of a wrapped operation does on the session: nothing and return
   * (`set_temperature` without a temperature), raise before any call (a failed
   * enumeration or table lookup), or make one call and raise exactly when that
   * call does.
   */
  datatype Action = Skip | Fail | Send(call: Call)

  /**
   * The effect of running an action (once, or under the policy) against a
   * script of replies: the calls made, the replies left, how many times the
   * operation ran, whether an exception escaped, and what the last call returned.
   */
  datatype Run = Run(calls: seq<Call>, rest: seq<Reply>, attempts: nat, raised: bool, data: Option<Parameters>)

  /** One run of the operation. */
  function Attempt(a: Action, replies: seq<Reply>): (r: Run)
    ensures r.attempts == 1
    ensures a.Skip? ==> r.calls == [] && r.rest == replies && !r.raised
    ensures a.Fail? ==> r.calls == [] && r.rest == replies && r.raised
    ensures a.Send? ==> r.calls == [a.call] && r.rest == Drop(replies) && (r.raised <==> Next(replies) == Raised)
    ensures r.data.Some? ==> a.Send? && Next(replies) == Returned(r.data)
  {
    match a
    case Skip => Run([], replies, 1, false, None)
    case Fail => Run([], replies, 1, true, None)
    case Send(c) =>
      match Next(replies)
      case Raised => Run([c], Drop(replies), 1, true, None)
      case Returned(d) => Run([c], Drop(replies), 1, false, d)
  }

  /** The wrapped operation: a first attempt, and on an exception one login and one more attempt. */
  function WithRelogin(a: Action, replies: seq<Reply>): (r: Run)
    ensures var first := Attempt(a, replies);
      !first.raised ==> r == first
    ensures var first := Attempt(a, replies);
      first.raised && Next(first.rest) == Raised ==>
        r.calls == first.calls + [Login] && r.attempts == 1 && r.raised
    ensures var first := Attempt(a, replies);
      var second := Attempt(a, Drop(first.rest));
      first.raised && Next(first.rest) != Raised ==>
        r.calls == first.calls + [Login] + second.calls && r.attempts == 2 && r.raised == second.raised
  {
    var first := Attempt(a, replies);
    if !first.raised then first
    else if Next(first.rest) == Raised then
      Run(first.calls + [Login], Drop(first.rest), 1, true, None)
    else
      var second := Attempt(a, Drop(first.rest));
      Run(first.calls + [Login] + second.calls, second.rest, 2, second.raised, second.data)
  }

  /** The operations the policy wraps never call `login()` themselves. */
  predicate Wrappable(a: Action)
  {
    a.Send? ==> !a.call.Login?
  }

  /** The number of times `c` occurs in `calls`. */
  function Count(calls: seq<Call>, c: Call): nat
  {
    if calls == [] then 0
    else (if calls[0] == c then 1 else 0) + Count(calls[1..], c)
  }

  lemma {:induction false} CountAppend(xs: seq<Call>, ys: seq<Call>, c: Call)
    ensures Count(xs + ys, c) == Count(xs, c) + Count(ys, c)
  {
    if xs == [] {
      assert xs + ys == ys;
    } else {
      assert (xs + ys)[0] == xs[0];
      assert (xs + ys)[1..] == xs[1..] + ys;
      CountAppend(xs[1..], ys, c);
    }
  }

  /**
   * The operation runs once or twice, and twice only after a login; `login()`
   * is called at most once, and exactly when the first attempt raised; the
   * operation's own call is made at most twice.
   */
  lemma RetryBounds(a: Action, replies: seq<Reply>)
    requires Wrappable(a)
    ensures var r := WithRelogin(a, replies);
      && 1 <= r.attempts <= 2
      && Count(r.calls, Login) <= 1
      && (Count(r.calls, Login) == 1 <==> Attempt(a, replies).raised)
      && (r.attempts == 2 ==> Count(r.calls, Login) == 1)
      && (a.Send? ==> Count(r.calls, a.call) <= 2)
  {
    var first := Attempt(a, replies);
    var r := WithRelogin(a, replies);
    CountFirst(a, replies);
    if first.raised {
      CountAppend(first.calls, [Login], Login);
      if Next(first.rest) != Raised {
        var second := Attempt(a, Drop(first.rest));
        CountAppend(first.calls + [Login], second.calls, Login);
        if a.Send? {
          CountAppend(first.calls, [Login], a.call);
          CountAppend(first.calls + [Login], second.calls, a.call);
        }
      } else if a.Send? {
        CountAppend(first.calls, [Login], a.call);
      }
    }
  }

  /** One attempt of a wrappable action never calls `login()`, and makes the action's call at most once. */
  lemma CountFirst(a: Action, replies: seq<Reply>)
    requires Wrappable(a)
    ensures Count(Attempt(a, replies).calls, Login) == 0
    ensures a.Send? ==> Count(Attempt(a, replies).calls, a.call) == 1
  {
    if a.Send? {
      assert Attempt(a, replies).calls == [a.call];
      assert [a.call][1..] == [];
    }
  }

  /** A first attempt that succeeds is the whole story: no login and no second attempt. */
  lemma FirstSuccessIsFinal(a: Action, replies: seq<Reply>)
    requires Wrappable(a)
    requires !Attempt(a, replies).raised
    ensures WithRelogin(a, replies) == Attempt(a, replies)
    ensures Count(WithRelogin(a, replies).calls, Login) == 0
  {
    CountFirst(a, replies);
  }

  /** An exception escapes exactly when the first attempt raised and then `login()` or the second attempt raised too. */
  lemma RaisedIff(a: Action, replies: seq<Reply>)
    ensures var first := Attempt(a, replies);
      WithRelogin(a, replies).raised <==>
        first.raised && (Next(first.rest) == Raised || Attempt(a, Drop(first.rest)).raised)
  {
  }

  lemma LoginOnceBetween(c: Call)
    requires !c.Login?
    ensures Count([c, Login, c], Login) == 1
  {
    assert [c][1..] == [];
    assert Count([c], Login) == 0;
    assert [Login, c][1..] == [c];
    assert Count([Login, c], Login) == 1;
    assert [c, Login, c][1..] == [Login, c];
  }

  /**
   * A call that fails once and then succeeds: one login, two calls of the
   * operation, and the wrapped operation returns what the second call returned.
   */
  lemma {:induction false} FailOnceThenSucceed(c: Call, d1: Option<Parameters>, d2: Option<Parameters>, later: seq<Reply>)
    requires !c.Login?
    ensures var r := WithRelogin(Send(c), [Raised, Returned(d1), Returned(d2)] + later);
      && r.calls == [c, Login, c]
      && Count(r.calls, Login) == 1
      && !r.raised && r.data == d2 && r.rest == later
  {
    var replies := [Raised, Returned(d1), Returned(d2)] + later;
    assert Drop(replies) == [Returned(d1), Returned(d2)] + later;
    assert Drop(Drop(replies)) == [Returned(d2)] + later;
    assert Drop(Drop(Drop(replies))) == later;
    LoginOnceBetween(c);
  }

  /** A call that fails twice: one login, and the second exception escapes. */
  lemma {:induction false} FailTwice(c: Call, d: Option<Parameters>, later: seq<Reply>)
    requires !c.Login?
    ensures var r := WithRelogin(Send(c), [Raised, Returned(d), Raised] + later);
      && r.calls == [c, Login, c]
      && Count(r.calls, Login) == 1
      && r.raised && r.rest == later
  {
    var replies := [Raised, Returned(d), Raised] + later;
    assert Drop(replies) == [Returned(d), Raised] + later;
    assert Drop(Drop(replies)) == [Raised] + later;
    assert Drop(Drop(Drop(replies))) == later;
    LoginOnceBetween(c);
  }

  /**
   * An operation that raises before reaching the cloud (an unknown label) is
   * retried all the same: one login, a second run, and the exception escapes.
   */
  lemma LocalFailureStillLogsIn(replies: seq<Reply>)
    ensures var r := WithRelogin(Fail, replies);
      && r.calls == [Login]
      && r.raised
      && r.attempts == (if Next(replies) == Raised then 1 else 2)
  {
  }

  /** One run of `a` on the shared session. */
  method AttemptOnce(api: Session, a: Action) returns (ok: bool, data: Option<Parameters>)
    modifies api
    ensures var r := Attempt(a, old(api.replies));
      && api.trace == old(api.trace) + r.calls
      && api.replies == r.rest
      && ok == !r.raised
      && data == r.data
  {
    match a
    case Skip =>
      ok, data := true, None;
    case Fail =>
      ok, data := false, None;
    case Send(c) =>
      var reply := api.Perform(c);
      ok := reply.Returned?;
      data := if reply.Returned? then reply.data else None;
  }

  /** `api_call_login`: `ok` is false when an exception escapes the wrapper. */
  method CallWithRelogin(api: Session, a: Action) returns (ok: bool, data: Option<Parameters>)
    modifies api
    ensures var r := WithRelogin(a, old(api.replies));
      && api.trace == old(api.trace) + r.calls
      && api.replies == r.rest
      && ok == !r.raised
      && data == r.data
  {
    ok, data := AttemptOnce(api, a);
    if !ok {
      var login := api.Perform(Login);
      if login == Raised {
        return false, None;
      }
      ok, data := AttemptOnce(api, a);
    }
  }

}
