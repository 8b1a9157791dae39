/** Admin sessions: a table that drops an expired entry only when it is looked up, against
    the history of logins and logouts. Time is in nanoseconds of the process's monotonic clock:
    both `create` and `valid` read it under the lock, and the table lives no longer than the
    process, so the times of a run always advance. */
module Sessions {
  import opened Records
  import opened Seqs

  const TTL: int := 7 * 24 * 3600 * 1_000_000_000

  type Table = map<string, int>  // token -> expiry

  datatype Op =
    | Create(token: string, at: int)
    | Lookup(token: string, at: int)
    | Destroy(token: string, at: int)

  predicate Answer(m: Table, tok: string, now: int) { tok in m && now <= m[tok] }

  function Apply(m: Table, op: Op): Table {
    match op
    case Create(tok, at) => m[tok := at + TTL]
    case Lookup(tok, at) => if tok in m && at > m[tok] then m - {tok} else m
    case Destroy(tok, _) => m - {tok}
  }

  class SessionMgr {
    var sessions: Table

    constructor ()
      ensures sessions == map[]
    {
      sessions := map[];
    }

    method Create(tok: string, now: int)
      modifies this
      ensures sessions == Apply(old(sessions), Op.Create(tok, now))
    {
      sessions := sessions[tok := now + TTL];
    }

    method IsValid(tok: string, now: int) returns (ok: bool)
      modifies this
      ensures ok == Answer(old(sessions), tok, now)
      ensures sessions == Apply(old(sessions), Lookup(tok, now))
    {
      if tok !in sessions { return false; }
      var exp := sessions[tok];
      if now > exp {
        sessions := sessions - {tok};
        return false;
      }
      return true;
    }

    method Destroy(tok: string, now: int)
      modifies this
      ensures sessions == Apply(old(sessions), Op.Destroy(tok, now))
    {
      sessions := sessions - {tok};
    }
  }

  function Run(ops: seq<Op>): Table {
    if ops == [] then map[] else Apply(Run(Butlast(ops)), Last(ops))
  }

  // ---- The history: lookups play no part ----

  /** When the token's session began, unless it was ended since. */
  function LiveSince(ops: seq<Op>, tok: string): Option<int> {
    if ops == [] then None
    else
      match Last(ops)
      case Create(t, at) => if t == tok then Some(at) else LiveSince(Butlast(ops), tok)
      case Destroy(t, _) => if t == tok then None else LiveSince(Butlast(ops), tok)
      case Lookup(_, _) => LiveSince(Butlast(ops), tok)
  }

  /** A lookup of the live token has already been refused as too late. */
  function SeenExpired(ops: seq<Op>, tok: string): bool {
    if ops == [] then false
    else
      match Last(ops)
      case Create(t, _) => t != tok && SeenExpired(Butlast(ops), tok)
      case Destroy(t, _) => t != tok && SeenExpired(Butlast(ops), tok)
      case Lookup(t, at) =>
        SeenExpired(Butlast(ops), tok)
        || (t == tok && LiveSince(Butlast(ops), tok).Some? && at > LiveSince(Butlast(ops), tok).value + TTL)
  }

  /** Under any clock. */
  lemma {:induction false} TableHoldsLive(ops: seq<Op>, tok: string)
    ensures var m, since := Run(ops), LiveSince(ops, tok);
            (tok in m <==> since.Some? && !SeenExpired(ops, tok))
            && (tok in m ==> m[tok] == since.value + 604_800_000_000_000)
  {
    if ops == [] {
    } else {
      TableHoldsLive(Butlast(ops), tok);
    }
  }

  /** The readings of a monotonic clock taken under one lock. */
  ghost predicate Advances(ops: seq<Op>, now: int) {
    && (forall i :: 0 <= i < |ops| ==> ops[i].at <= now)
    && (forall i, j :: 0 <= i < j < |ops| ==> ops[i].at <= ops[j].at)
  }

  lemma {:induction false} SeenExpiredMeansExpired(ops: seq<Op>, tok: string, now: int)
    requires Advances(ops, now)
    ensures SeenExpired(ops, tok) ==> LiveSince(ops, tok).Some? && now > LiveSince(ops, tok).value + TTL
  {
    if ops == [] {
    } else {
      SeenExpiredMeansExpired(Butlast(ops), tok, Last(ops).at);
    }
  }

  /** A token is valid exactly when its session began at most seven days ago and was not ended
      since. */
  lemma {:induction false} ValidIffRecentlyCreated(ops: seq<Op>, tok: string, now: int)
    requires Advances(ops, now)
    ensures Answer(Run(ops), tok, now)
            <==> LiveSince(ops, tok).Some? && now - LiveSince(ops, tok).value <= 7 * 86_400_000_000_000
  {
    TableHoldsLive(ops, tok);
    SeenExpiredMeansExpired(ops, tok, now);
  }

  function WithoutLookups(ops: seq<Op>): seq<Op> {
    if ops == [] then []
    else WithoutLookups(Butlast(ops)) + if Last(ops).Lookup? then [] else [Last(ops)]
  }

  lemma {:induction false} LiveWithoutLookups(ops: seq<Op>, tok: string)
    ensures LiveSince(WithoutLookups(ops), tok) == LiveSince(ops, tok)
    ensures !SeenExpired(WithoutLookups(ops), tok)
  {
    if ops == [] {
    } else {
      var pre := WithoutLookups(Butlast(ops));
      LiveWithoutLookups(Butlast(ops), tok);
      assert Butlast(pre + [Last(ops)]) == pre && pre + [] == pre;
    }
  }

  /** Dropping expired entries on lookup cannot be observed: the answer is that of the same
      run without its lookups. */
  lemma {:induction false} LookupsUnobservable(ops: seq<Op>, tok: string, now: int)
    requires Advances(ops, now)
    ensures Answer(Run(ops), tok, now) == Answer(Run(WithoutLookups(ops)), tok, now)
  {
    hide Run, LiveSince, SeenExpired;
    ValidIffRecentlyCreated(ops, tok, now);
    LiveWithoutLookups(ops, tok);
    TableHoldsLive(WithoutLookups(ops), tok);
  }
}
