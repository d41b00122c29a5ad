/** What every run of the keeper guarantees: its books, its deadline, its retries, its chain trace. */
module KeeperProofs {
  import opened Basics
  import opened Keeper

  // ------------------------------------------------ the pending map's laws

  lemma {:induction false} PutIsUpdate(p: seq<Pending>, e: Pending)
    requires Distinct(p)
    ensures Distinct(Put(p, e))
    ensures forall q :: q in Put(p, e) <==> q == e || (q in p && q.key != e.key)
  {
    if p == [] || p[0].key == e.key {
      assert p != [] ==> p == [p[0]] + p[1..];
    } else {
      PutIsUpdate(p[1..], e);
      assert p == [p[0]] + p[1..];
      assert Put(p, e)[1..] == Put(p[1..], e);
      forall i, j | 0 <= i < j < |Put(p, e)| ensures Put(p, e)[i].key != Put(p, e)[j].key {
        assert Put(p, e)[j] == Put(p[1..], e)[j - 1];
        assert Put(p[1..], e)[j - 1] in Put(p[1..], e);
        if i > 0 { assert Put(p, e)[i] == Put(p[1..], e)[i - 1]; }
      }
    }
  }

  lemma {:induction false} DeleteIsRemoval(p: seq<Pending>, key: string)
    requires Distinct(p)
    ensures Distinct(Delete(p, key))
    ensures forall q :: q in Delete(p, key) <==> q in p && q.key != key
  {
    if p == [] {
    } else if p[0].key == key {
      assert p == [p[0]] + p[1..];
    } else {
      DeleteIsRemoval(p[1..], key);
      assert p == [p[0]] + p[1..];
      assert Delete(p, key)[1..] == Delete(p[1..], key);
      forall i, j | 0 <= i < j < |Delete(p, key)| ensures Delete(p, key)[i].key != Delete(p, key)[j].key {
        assert Delete(p, key)[j] == Delete(p[1..], key)[j - 1];
        assert Delete(p[1..], key)[j - 1] in Delete(p[1..], key);
        if i > 0 { assert Delete(p, key)[i] == Delete(p[1..], key)[i - 1]; }
      }
    }
  }

  lemma {:induction false} PutFresh(p: seq<Pending>, e: Pending)
    requires forall q :: q in p ==> q.key != e.key
    ensures Put(p, e) == p + [e]
  {
    if p != [] {
      PutFresh(p[1..], e);
      assert p == [p[0]] + p[1..];
    }
  }

  lemma SameKeySameEntry(p: seq<Pending>, a: Pending, b: Pending)
    requires Distinct(p) && a in p && b in p && a.key == b.key
    ensures a == b
  {
    var i :| 0 <= i < |p| && p[i] == a;
    var j :| 0 <= j < |p| && p[j] == b;
  }

  // ------------------------------------------------------------- the passes

  /** What every row of a pass keeps, the pass keeps, whole or cut short. */
  lemma {:induction false} PassKeeps(row: RowStep, s: State, i: nat, n: nat, inv: (State, nat) -> bool)
    requires i <= n && inv(s, i)
    requires forall t, j: nat :: i <= j < n && inv(t, j) ==> inv(row(t, j), j + 1)
    ensures inv(Pass(row, s, i, n), n)
    decreases n - i
  {
    if i < n { PassKeeps(row, row(s, i), i + 1, n, inv); }
  }

  lemma RetryOfRow(c: Config, rows: seq<Pending>, now: int, envs: nat -> Env, s: State, i: nat)
    requires i < |rows|
    ensures RetryOf(c, rows, now, envs)(s, i) == RetryRow(c, s, rows[i], now, envs(i))
  {
  }

  lemma HousekeepOfRow(c: Config, rows: seq<Pending>, now: int, envs: nat -> Env, s: State, i: nat)
    requires i < |rows|
    ensures HousekeepOf(c, rows, now, envs)(s, i) == HousekeepRow(c, s, rows[i], now, envs(2 * i), envs(2 * i + 1))
  {
  }

  // ------------------------------------------------------------- the books

  predicate Restorable(q: Pending) { q.key != "" && q.action.pred.matchId != "" }

  predicate InSync(s: State) {
    s.file == Some(ToRows(s.pending)) || (s.file.None? && s.pending == [])
  }

  /** Memory and disk agree, and every entry is one a reload will accept. */
  predicate Books(s: State) {
    && Distinct(s.pending)
    && InSync(s)
    && forall q :: q in s.pending ==> Restorable(q)
  }

  function RestorableOnly(p: seq<Pending>): (r: seq<Pending>)
    ensures forall q :: q in r ==> q in p && Restorable(q)
  {
    if p == [] then []
    else RestorableOnly(p[..|p| - 1]) + (if Restorable(p[|p| - 1]) then [p[|p| - 1]] else [])
  }

  lemma {:induction false} RestorableOnlyAll(p: seq<Pending>)
    ensures RestorableOnly(p) == p <==> forall q :: q in p ==> Restorable(q)
    ensures |RestorableOnly(p)| <= |p|
  {
    if p != [] {
      var front := p[..|p| - 1];
      RestorableOnlyAll(front);
      assert p == front + [p[|p| - 1]];
      if RestorableOnly(p) == p {
        forall q | q in p ensures Restorable(q) { assert q in RestorableOnly(p); }
      }
    }
  }

  /** Loading rows i.. of a file written from `p`, when rows ..i are already in. */
  lemma {:induction false} LoadRestores(s: State, p: seq<Pending>, now: int, i: nat)
    requires i <= |p| && Distinct(p)
    requires s.pending == RestorableOnly(p[..i])
    requires forall q :: q in s.pending ==> Tracked(s.open, q.key)
    ensures var t := LoadRows(s, ToRows(p), now, i);
      && t.pending == RestorableOnly(p)
      && (forall q :: q in t.pending ==> Tracked(t.open, q.key))
      && t.file == s.file && t.chain == s.chain && t.sent == s.sent
    decreases |p| - i
  {
    if i == |p| {
      assert p[..i] == p;
    } else {
      var t := LoadRow(s, ToRows(p)[i], now);
      assert p[..i + 1][..i] == p[..i] && p[..i + 1][i] == p[i];
      assert ToRows(p)[i] == ToRow(p[i]);
      if Restorable(p[i]) {
        assert FromRow(ToRow(p[i]), now) == p[i];
        forall q | q in s.pending ensures q.key != p[i].key {
          var j :| 0 <= j < i && p[j] == q;
        }
        PutFresh(s.pending, p[i]);
        TrackTracks(s.(pending := Put(s.pending, p[i])), p[i]);
      }
      LoadRestores(t, p, now, i + 1);
    }
  }

  lemma TrackTracks(s: State, p: Pending)
    ensures Tracked(Track(s, p).open, p.key)
    ensures forall k :: Tracked(s.open, k) ==> Tracked(Track(s, p).open, k)
    ensures forall m :: m in Track(s, p).open ==> m in s.open || m == MarketOf(p)
  {
    var t := Track(s, p);
    if !Tracked(s.open, p.key) {
      assert MarketOf(p) in t.open;
    }
    forall k | Tracked(s.open, k) ensures Tracked(t.open, k) {
      var m :| m in s.open && m.marketPda == k;
      assert m in t.open;
    }
  }

  /** A row of the file counts when it names a market and a match; fields it lacks are nought attempts, and now. */
  lemma RowIsLoaded(s: State, r: Row, now: int)
    requires Distinct(s.pending)
    ensures var t := LoadRow(s, r, now);
      if r.marketPda == "" || r.action.None? || r.action.value.pred.matchId == "" then t == s
      else Lookup(t.pending, r.marketPda) == Some(Pending(r.marketPda, r.action.value,
             match r.attempts case Some(n) => n case None => 0,
             match r.nextAttemptAt case Some(at) => at case None => now,
             match r.enqueuedAt case Some(at) => at case None => now))
    ensures r.enqueuedAt.Some? && LoadRow(s, r, now).open != s.open ==>
      var a := r.action.value;
      LoadRow(s, r, now).open == s.open + [OpenMarket(a.pred, a.title, r.enqueuedAt.value, 7200, r.marketPda)]
  {
    if Readable(r) { PutIsUpdate(s.pending, FromRow(r, now)); }
  }

  /**
   A reload of the file written from any pending map restores exactly the entries with a
   key and a match id, unchanged and in order, and tracks a market for each of them.
  */
  lemma ReloadRestores(s: State, p: seq<Pending>, now: int)
    requires Distinct(p) && s.file == Some(ToRows(p))
    ensures Restart(s, now).pending == RestorableOnly(p)
    ensures Restart(s, now).pending == p <==> forall q :: q in p ==> Restorable(q)
    ensures forall q :: q in Restart(s, now).pending ==> Tracked(Restart(s, now).open, q.key)
  {
    var s0 := s.(open := [], pending := []);
    assert p[..0] == [];
    LoadRestores(s0, p, now, 0);
    RestorableOnlyAll(p);
  }

  lemma RestartKeepsBooks(s: State, now: int)
    requires Books(s)
    ensures var t := Restart(s, now);
      && t.pending == s.pending && t.file == s.file && t.chain == s.chain && t.sent == s.sent
      && Books(t)
      && forall q :: q in t.pending ==> Tracked(t.open, q.key)
  {
    if s.file.Some? {
      var s0 := s.(open := [], pending := []);
      assert s.pending[..0] == [];
      LoadRestores(s0, s.pending, now, 0);
      RestorableOnlyAll(s.pending);
    }
  }
}
