/**
 The two session maps over whole runs: a token stays live, and an account keeps the connection for its
 reports, exactly until a connection that holds the token closes or the process crashes.
 */
module Registry {
  import opened Exchange
  import opened Runs

  predicate IsCrash(e: Event) {
    e.Crash? || e.CrashInPlace?
  }

  // The closing connection holds token t, or the process ends.
  predicate DropsToken(s: State, e: Event, t: string) {
    IsCrash(e) || (e.Close? && e.sid in s.ids && s.ids[e.sid] == t)
  }

  // The closing connection holds a live token of account u, or the process ends.
  predicate DropsSession(s: State, e: Event, u: nat) {
    IsCrash(e) || (e.Close? && e.sid in s.ids && s.ids[e.sid] in s.users && s.users[s.ids[e.sid]] == u)
  }

  // Requests other than logins leave the registry alone, and reads leave everything alone.
  lemma StepFrame(s: State, e: Event, limit: nat)
    requires Inv(s) && Enabled(s, e, limit)
    ensures e.Place? || e.Cancel? || e.ReadOnly? ==>
      Next(s, e).users == s.users && Next(s, e).sessions == s.sessions && Next(s, e).ids == s.ids
    ensures e.ReadOnly? ==> Next(s, e) == s
    ensures e.Authorize? || e.Close? || e.Crash? ==> Next(s, e).db == s.db
    ensures IsCrash(e) ==> Next(s, e).users == map[] && Next(s, e).sessions == map[] && Next(s, e).ids == map[]
  {
  }

  lemma StepKeepsToken(s: State, e: Event, limit: nat, t: string)
    requires Inv(s) && Enabled(s, e, limit) && t in s.users
    ensures t in Next(s, e).users <==> !DropsToken(s, e, t)
    ensures t in Next(s, e).users ==> Next(s, e).users[t] == s.users[t]
  {
    StepFrame(s, e, limit);
    match e
    case Close(sid) => CloseLogsOut(s, sid);
    case _ =>
  }

  lemma StepKeepsSession(s: State, e: Event, limit: nat, u: nat)
    requires Inv(s) && Enabled(s, e, limit) && u in s.sessions
    ensures u in Next(s, e).sessions <==> !DropsSession(s, e, u)
    ensures u in Next(s, e).sessions ==> Next(s, e).sessions[u] == s.sessions[u]
  {
    StepFrame(s, e, limit);
    match e
    case Close(sid) => CloseLogsOut(s, sid);
    case _ =>
  }

  ghost predicate NeverDropped(s: State, es: seq<Event>, t: string) {
    forall k :: 0 <= k < |es| ==> !DropsToken(After(s, es[..k]), es[k], t)
  }

  ghost predicate SessionKept(s: State, es: seq<Event>, u: nat) {
    forall k :: 0 <= k < |es| ==> !DropsSession(After(s, es[..k]), es[k], u)
  }

  lemma {:induction false} TokenStaysLive(s: State, es: seq<Event>, limit: nat, t: string)
    requires Inv(s) && ValidRun(s, es, limit) && t in s.users && NeverDropped(s, es, t)
    ensures t in After(s, es).users && After(s, es).users[t] == s.users[t]
    decreases |es|
  {
    if es != [] {
      var n := |es| - 1;
      var init := es[..n];
      RunKeepsInv(s, init, limit);
      assert forall k :: 0 <= k < n ==> init[..k] == es[..k] && init[k] == es[k];
      TokenStaysLive(s, init, limit, t);
      StepKeepsToken(After(s, init), es[n], limit, t);
    }
  }

  // A dropped token is dead at once.
  lemma DroppedIsDead(s: State, es: seq<Event>, limit: nat, t: string, k: nat)
    requires Inv(s) && ValidRun(s, es, limit) && k < |es| && DropsToken(After(s, es[..k]), es[k], t)
    ensures t !in After(s, es[..k + 1]).users || t !in After(s, es[..k]).users
  {
    PrefixValid(s, es, limit, k);
    PrefixValid(s, es, limit, k + 1);
    RunKeepsInv(s, es[..k], limit);
    assert es[..k + 1][..k] == es[..k];
    if t in After(s, es[..k]).users {
      StepKeepsToken(After(s, es[..k]), es[k], limit, t);
    }
  }

  lemma KeptInPrefix(s: State, es: seq<Event>, limit: nat, t: string, j: nat)
    requires Inv(s) && ValidRun(s, es, limit) && t in s.users && NeverDropped(s, es, t) && j <= |es|
    ensures t in After(s, es[..j]).users && After(s, es[..j]).users[t] == s.users[t]
  {
    PrefixValid(s, es, limit, j);
    assert forall k :: 0 <= k < j ==> es[..j][..k] == es[..k] && es[..j][k] == es[k];
    TokenStaysLive(s, es[..j], limit, t);
  }

  // Over any run a live token stays live all the time, and for the same account, if and only if no crash
  // happens and no connection that holds it closes.
  lemma TokensPersist(s: State, es: seq<Event>, limit: nat, t: string)
    requires Inv(s) && ValidRun(s, es, limit) && t in s.users
    ensures NeverDropped(s, es, t) <==> LiveFrom(s, es, 0, t)
    ensures NeverDropped(s, es, t) ==> t in After(s, es).users && After(s, es).users[t] == s.users[t]
  {
    if NeverDropped(s, es, t) {
      TokenStaysLive(s, es, limit, t);
      forall j | 0 <= j <= |es| ensures t in After(s, es[..j]).users {
        KeptInPrefix(s, es, limit, t, j);
      }
    }
    if LiveFrom(s, es, 0, t) {
      forall k | 0 <= k < |es| ensures !DropsToken(After(s, es[..k]), es[k], t) {
        if DropsToken(After(s, es[..k]), es[k], t) {
          DroppedIsDead(s, es, limit, t, k);
        }
      }
    }
  }

  // Over any run an account keeps the connection that gets its reports until a connection of it closes.
  lemma {:induction false} SessionsPersist(s: State, es: seq<Event>, limit: nat, u: nat)
    requires Inv(s) && ValidRun(s, es, limit) && u in s.sessions && SessionKept(s, es, u)
    ensures u in After(s, es).sessions && After(s, es).sessions[u] == s.sessions[u]
    decreases |es|
  {
    if es != [] {
      var n := |es| - 1;
      var init := es[..n];
      RunKeepsInv(s, init, limit);
      assert forall k :: 0 <= k < n ==> init[..k] == es[..k] && init[k] == es[k];
      SessionsPersist(s, init, limit, u);
      StepKeepsSession(After(s, init), es[n], limit, u);
    }
  }
}
