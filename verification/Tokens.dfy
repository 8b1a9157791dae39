/** Agent tokens: the servers table against the history of what was issued to whom. */
module Tokens {
  import opened Records
  import opened Seqs

  type Servers = map<string, ServerRow>

  // ---- Lookup: by plaintext first, then by digest ----

  predicate ByToken(s: Servers, tok: string, u: string) { u in s && s[u].token == tok }

  predicate ByDigest(s: Servers, tok: string, u: string) { u in s && s[u].tokenHash == Sha256(tok) }

  /** r is a possible answer of the lookup; a query that matches several rows may return any. */
  ghost predicate IsLookup(s: Servers, tok: string, r: Option<string>) {
    if tok == "" then r == None
    else if exists u :: ByToken(s, tok, u) then r.Some? && ByToken(s, tok, r.value)
    else if exists u :: ByDigest(s, tok, u) then r.Some? && ByDigest(s, tok, r.value)
    else r == None
  }

  // ---- Operations ----

  datatype Op =
    | Create(uuid: string, name: string, token: string)
    | Reset(uuid: string, token: string)
    | Delete(uuid: string)

  /** A row as INSERT leaves it: the named columns and the schema's defaults. */
  function NewRow(name: string, token: string): ServerRow {
    ServerRow(name, token, Sha256(token), 0, 0, "sum", true, 60, 0, 0, 0, None)
  }

  /** Create fails on an empty name or a uuid that exists, Reset on one that does not. */
  predicate Succeeds(s: Servers, op: Op) {
    match op
    case Create(u, name, _) => name != "" && u !in s
    case Reset(u, _) => u in s
    case Delete(_) => true
  }

  function Apply(s: Servers, op: Op): Servers {
    if !Succeeds(s, op) then s
    else
      match op
      case Create(u, name, tok) => s[u := NewRow(name, tok)]
      case Reset(u, tok) => s[u := s[u].(tokenHash := Sha256(tok), token := tok)]
      case Delete(u) => s - {u}
  }

  function Run(s0: Servers, ops: seq<Op>): Servers {
    if ops == [] then s0 else Apply(Run(s0, Butlast(ops)), Last(ops))
  }

  // ---- The history ----

  /** The token issued last to server u, if u still exists. A row found at the start was
      issued the token whose digest it holds. */
  function Current(s0: Servers, ops: seq<Op>, u: string): Option<string> {
    if ops == [] then if u in s0 then Some(s0[u].tokenHash.preimage) else None
    else
      var before := Current(s0, Butlast(ops), u);
      match Last(ops)
      case Create(v, name, tok) => if v == u && name != "" && before == None then Some(tok) else before
      case Reset(v, tok) => if v == u && before.Some? then Some(tok) else before
      case Delete(v) => if v == u then None else before
  }

  /** Rows as created or as migrated from before the plaintext column existed. */
  ghost predicate Wellformed(s0: Servers) {
    forall u :: u in s0 ==> s0[u].token == s0[u].tokenHash.preimage || s0[u].token == ""
  }

  /** Tokens are never empty and never drawn twice. */
  ghost predicate Fresh(s0: Servers, ops: seq<Op>) {
    && (forall u :: u in s0 ==> s0[u].tokenHash.preimage != "")
    && (forall u, v :: u in s0 && v in s0 && s0[u].tokenHash == s0[v].tokenHash ==> u == v)
    && (forall k :: 0 <= k < |ops| && !ops[k].Delete? ==> ops[k].token != "")
    && (forall k, u :: 0 <= k < |ops| && !ops[k].Delete? && u in s0 ==> ops[k].token != s0[u].tokenHash.preimage)
    && (forall j, k :: 0 <= j < k < |ops| && !ops[j].Delete? && !ops[k].Delete? ==> ops[j].token != ops[k].token)
  }

  // ---- Proofs ----

  /** Each row holds the digest of its server's current token, and its plaintext or nothing. */
  lemma {:induction false} RowHoldsCurrent(s0: Servers, ops: seq<Op>, u: string)
    requires Wellformed(s0)
    ensures var s := Run(s0, ops);
            (u in s <==> Current(s0, ops, u).Some?)
            && (u in s ==> s[u].tokenHash == Sha256(Current(s0, ops, u).value)
                           && (s[u].token == Current(s0, ops, u).value || s[u].token == ""))
  {
    if ops == [] {
    } else {
      RowHoldsCurrent(s0, Butlast(ops), u);
      RowHoldsCurrent(s0, Butlast(ops), Last(ops).uuid);
    }
  }

  /** Where a current token came from. */
  ghost predicate IssuedAt(ops: seq<Op>, k: int, u: string, tok: string) {
    0 <= k < |ops| && !ops[k].Delete? && ops[k].uuid == u && ops[k].token == tok
  }

  lemma {:induction false} CurrentWasIssued(s0: Servers, ops: seq<Op>, u: string, tok: string)
    requires Current(s0, ops, u) == Some(tok)
    ensures (u in s0 && s0[u].tokenHash.preimage == tok) || exists k :: IssuedAt(ops, k, u, tok)
  {
    if ops == [] {
    } else {
      var pre := Butlast(ops);
      if Current(s0, pre, u) == Some(tok) {
        CurrentWasIssued(s0, pre, u, tok);
        if k :| IssuedAt(pre, k, u, tok) {
          assert IssuedAt(ops, k, u, tok);
        }
      } else {
        assert IssuedAt(ops, |ops| - 1, u, tok);
      }
    }
  }

  lemma CurrentTokensDiffer(s0: Servers, ops: seq<Op>, u: string, v: string)
    requires Fresh(s0, ops)
    requires Current(s0, ops, u).Some? && Current(s0, ops, u) == Current(s0, ops, v)
    ensures u == v && Current(s0, ops, u).value != ""
  {
    var tok := Current(s0, ops, u).value;
    CurrentWasIssued(s0, ops, u, tok);
    CurrentWasIssued(s0, ops, v, tok);
    if j :| IssuedAt(ops, j, u, tok) {
      if k :| IssuedAt(ops, k, v, tok) {
        assert j == k;
      }
    }
  }

  /** After any run, on migrated and new rows alike, a token is accepted for server u
      exactly when it is the one issued last to u and u still exists. */
  lemma {:induction false} LookupFindsCurrentOwner(s0: Servers, ops: seq<Op>, tok: string, r: Option<string>, u: string)
    requires Wellformed(s0) && Fresh(s0, ops)
    requires IsLookup(Run(s0, ops), tok, r)
    ensures r == Some(u) <==> Current(s0, ops, u) == Some(tok)
  {
    hide Run, Current;
    var s := Run(s0, ops);
    if r.Some? {
      RowHoldsCurrent(s0, ops, r.value);
    }
    RowHoldsCurrent(s0, ops, u);
    if Current(s0, ops, u) == Some(tok) {
      CurrentTokensDiffer(s0, ops, u, u);
      assert ByDigest(s, tok, u);
      CurrentTokensDiffer(s0, ops, u, r.value);
    }
  }

  /** The two queries never disagree: a plaintext hit is a digest hit, and the other way
      round for every row that has its plaintext. */
  lemma {:induction false} PlaintextAgreesWithDigest(s0: Servers, ops: seq<Op>, tok: string, u: string)
    requires Wellformed(s0) && tok != ""
    ensures var s := Run(s0, ops);
            (ByToken(s, tok, u) ==> ByDigest(s, tok, u))
            && (ByDigest(s, tok, u) && s[u].token != "" ==> ByToken(s, tok, u))
  {
    RowHoldsCurrent(s0, ops, u);
  }
}
