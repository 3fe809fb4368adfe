/** What the rows loop of `table_rows_string_concat` promises, stated on
    `ConcatRun`: the aggregator sees every entity once, in row order, whether
    its row came from the cache or not; the cache only ever gains entries, each
    the html of a row under that row's key; with a cache key the html of a row
    is the cache entry for its key, and a row is rendered only when its key is
    missing at its turn; and a cache that agrees with what the rows render is
    invisible in the output. */
module StringConcatLoop {
  import opened Prelude
  import opened Values
  import opened Config
  import opened StringConcatStrategy
  import opened RowModel
  import opened Html

  /** `b` holds every entry of `a`, unchanged. */
  predicate Extends(a: map<string, string>, b: map<string, string>) {
    forall k :: k in a ==> k in b && b[k] == a[k]
  }

  /** One step never removes or replaces a cache entry. */
  lemma StepExtendsCache(l: RowsLoop, i: nat, prev: Run)
    requires i < |l.rows| == |l.rendered|
    ensures Extends(prev.cache, ConcatStep(l, i, prev).cache)
  {
  }

  /** The cache after `m` rows holds every entry it had after `n <= m` rows. */
  lemma {:induction false} CacheOnlyGrows(l: RowsLoop, cache0: map<string, string>, data0: AggData, n: nat, m: nat)
    requires n <= m <= |l.rows| == |l.rendered|
    ensures Extends(ConcatRun(l, cache0, data0, n).cache, ConcatRun(l, cache0, data0, m).cache)
    decreases m - n
  {
    if n < m {
      CacheOnlyGrows(l, cache0, data0, n, m - 1);
      StepExtendsCache(l, m - 1, ConcatRun(l, cache0, data0, m - 1));
    }
  }

  /** A completed loop has one html per row, and the aggregator has been
      folded over every entity, in row order, hit or miss. */
  lemma {:induction false} OkRunAggregatesAll(l: RowsLoop, cache0: map<string, string>, data0: AggData, n: nat)
    requires n <= |l.rows| == |l.rendered|
    ensures var run := ConcatRun(l, cache0, data0, n);
      run.out.Ok? ==> |run.out.value| == n && run.data == FoldAgg(l.agg, data0, l.rows[..n])
  {
    if n > 0 {
      OkRunAggregatesAll(l, cache0, data0, n - 1);
      assert l.rows[..n][..n - 1] == l.rows[..n - 1];
    }
  }

  /** A failed loop failed at some row `j` whose rendering raised that error;
      the aggregator has seen the rows up to and including row `j`, and no
      later one. */
  lemma {:induction false} ErrRunStopsAtFailingRow(l: RowsLoop, cache0: map<string, string>, data0: AggData, n: nat)
    requires n <= |l.rows| == |l.rendered|
    ensures var run := ConcatRun(l, cache0, data0, n);
      run.out.Err? ==>
        exists j :: 0 <= j < n && l.rendered[j] == Err(run.out.error) &&
                    run.data == FoldAgg(l.agg, data0, l.rows[..j + 1])
  {
    if n > 0 {
      var prev := ConcatRun(l, cache0, data0, n - 1);
      var run := ConcatRun(l, cache0, data0, n);
      if prev.out.Err? {
        ErrRunStopsAtFailingRow(l, cache0, data0, n - 1);
        assert run == prev;
      } else if run.out.Err? {
        OkRunAggregatesAll(l, cache0, data0, n - 1);
        assert l.rows[..n][..n - 1] == l.rows[..n - 1];
        assert run.data == Aggregate(l.agg, l.rows[n - 1], prev.data);
        assert l.rendered[n - 1] == Err(run.out.error);
        assert run.data == FoldAgg(l.agg, data0, l.rows[..n - 1 + 1]);
      }
    }
  }

  /** Without a cache key the cache is never touched, and the loop gives the
      html of every row when every row renders, and fails otherwise. */
  lemma {:induction false} NoKeyRendersDirectly(l: RowsLoop, cache0: map<string, string>, data0: AggData, n: nat)
    requires n <= |l.rows| == |l.rendered| && l.key.None?
    ensures var run := ConcatRun(l, cache0, data0, n);
      run.cache == cache0 &&
      (run.out.Ok? <==> forall i :: 0 <= i < n ==> l.rendered[i].Ok?) &&
      (run.out.Ok? ==> |run.out.value| == n && forall i :: 0 <= i < n ==> l.rendered[i] == Ok(run.out.value[i]))
  {
    if n > 0 {
      NoKeyRendersDirectly(l, cache0, data0, n - 1);
      OkRunAggregatesAll(l, cache0, data0, n - 1);
      OkRunAggregatesAll(l, cache0, data0, n);
    }
  }

  /** With a cache key, the html of every row of a completed loop is the cache
      entry for the row's key. */
  lemma {:induction false} KeyedRowsAreCacheEntries(l: RowsLoop, cache0: map<string, string>, data0: AggData, n: nat)
    requires n <= |l.rows| == |l.rendered| && l.key.Some?
    ensures var run := ConcatRun(l, cache0, data0, n);
      run.out.Ok? ==>
        |run.out.value| == n &&
        forall i :: 0 <= i < n ==> l.key.value(l.rows[i]) in run.cache && run.out.value[i] == run.cache[l.key.value(l.rows[i])]
  {
    if n > 0 {
      var prev := ConcatRun(l, cache0, data0, n - 1);
      var run := ConcatRun(l, cache0, data0, n);
      KeyedRowsAreCacheEntries(l, cache0, data0, n - 1);
      OkRunAggregatesAll(l, cache0, data0, n - 1);
      StepExtendsCache(l, n - 1, prev);
    }
  }

  /** Every entry the loop adds is the html of some row it rendered, stored
      under that row's key. */
  lemma {:induction false} NewEntriesAreRenderedRows(l: RowsLoop, cache0: map<string, string>, data0: AggData, n: nat)
    requires n <= |l.rows| == |l.rendered|
    ensures var run := ConcatRun(l, cache0, data0, n);
      forall k :: k in run.cache && k !in cache0 ==>
        l.key.Some? && exists j :: 0 <= j < n && l.key.value(l.rows[j]) == k && l.rendered[j] == Ok(run.cache[k])
  {
    if n > 0 {
      NewEntriesAreRenderedRows(l, cache0, data0, n - 1);
      var prev := ConcatRun(l, cache0, data0, n - 1);
      var run := ConcatRun(l, cache0, data0, n);
      StepExtendsCache(l, n - 1, prev);
      forall k | k in run.cache && k !in cache0
        ensures l.key.Some? && exists j :: 0 <= j < n && l.key.value(l.rows[j]) == k && l.rendered[j] == Ok(run.cache[k])
      {
        if k !in prev.cache {
          assert l.key.value(l.rows[n - 1]) == k && l.rendered[n - 1] == Ok(run.cache[k]);
        } else {
          var j :| 0 <= j < n - 1 && l.key.value(l.rows[j]) == k && l.rendered[j] == Ok(prev.cache[k]);
          assert l.rendered[j] == Ok(run.cache[k]);
        }
      }
    }
  }

  /** With a cache key, the key of the row at position `i` is already cached
      when the loop reaches it. */
  predicate HitAt(l: RowsLoop, cache0: map<string, string>, data0: AggData, i: nat)
    requires i < |l.rows| == |l.rendered| && l.key.Some?
  {
    l.key.value(l.rows[i]) in ConcatRun(l, cache0, data0, i).cache
  }

  /** The row at position `i` is served: its key is cached at its turn, or
      it renders. */
  predicate ServedAt(l: RowsLoop, cache0: map<string, string>, data0: AggData, i: nat)
    requires i < |l.rows| == |l.rendered| && l.key.Some?
  {
    HitAt(l, cache0, data0, i) || l.rendered[i].Ok?
  }

  /** The html a served row contributes: the entry found at its turn on a
      hit, its rendering on a miss. */
  function HtmlAt(l: RowsLoop, cache0: map<string, string>, data0: AggData, i: nat): string
    requires i < |l.rows| == |l.rendered| && l.key.Some? && ServedAt(l, cache0, data0, i)
  {
    if HitAt(l, cache0, data0, i) then ConcatRun(l, cache0, data0, i).cache[l.key.value(l.rows[i])]
    else l.rendered[i].value
  }

  /** With a cache key, a row is computed only on a miss: the loop succeeds
      exactly when every row whose key is missing at its turn renders (what a
      cached row would render is never looked at), and the html of each row is
      the entry found at its turn on a hit and its rendering on a miss. */
  lemma {:induction false} KeyedRenderOnlyOnMiss(l: RowsLoop, cache0: map<string, string>, data0: AggData, n: nat)
    requires n <= |l.rows| == |l.rendered| && l.key.Some?
    ensures var run := ConcatRun(l, cache0, data0, n);
      (run.out.Ok? <==> forall i :: 0 <= i < n ==> ServedAt(l, cache0, data0, i)) &&
      (run.out.Ok? ==>
         |run.out.value| == n &&
         forall i :: 0 <= i < n ==> ServedAt(l, cache0, data0, i) && run.out.value[i] == HtmlAt(l, cache0, data0, i))
  {
    if n > 0 {
      KeyedRenderOnlyOnMiss(l, cache0, data0, n - 1);
      var prev := ConcatRun(l, cache0, data0, n - 1);
      var run := ConcatRun(l, cache0, data0, n);
      assert run == ConcatStep(l, n - 1, prev);
      if prev.out.Err? {
        assert run == prev;
        var i :| 0 <= i < n - 1 && !ServedAt(l, cache0, data0, i);
      } else if ServedAt(l, cache0, data0, n - 1) {
        assert run.out == Ok(prev.out.value + [HtmlAt(l, cache0, data0, n - 1)]);
      } else {
        assert run.out.Err?;
      }
    }
  }

  /** With a cache key, a loop whose every row is already cached succeeds
      whatever rendering the rows would give, leaves the cache as it was, and
      gives the cached entries in row order. */
  lemma {:induction false} AllHitsIgnoreRendering(l: RowsLoop, cache0: map<string, string>, data0: AggData, n: nat)
    requires n <= |l.rows| == |l.rendered| && l.key.Some?
    requires forall i :: 0 <= i < n ==> l.key.value(l.rows[i]) in cache0
    ensures var run := ConcatRun(l, cache0, data0, n);
      run.cache == cache0 && run.out.Ok? && |run.out.value| == n &&
      forall i :: 0 <= i < n ==> run.out.value[i] == cache0[l.key.value(l.rows[i])]
  {
    if n > 0 {
      AllHitsIgnoreRendering(l, cache0, data0, n - 1);
    }
  }

  /** The cache agrees with what the rows render: any row whose key has an
      entry renders to that entry. */
  predicate Consistent(l: RowsLoop, cache: map<string, string>)
    requires l.key.Some? && |l.rows| == |l.rendered|
  {
    forall i :: 0 <= i < |l.rows| && l.key.value(l.rows[i]) in cache ==>
      l.rendered[i] == Ok(cache[l.key.value(l.rows[i])])
  }

  /** Rows that share a key render alike. */
  predicate KeysFaithful(l: RowsLoop)
    requires l.key.Some? && |l.rows| == |l.rendered|
  {
    forall i, j :: 0 <= i < |l.rows| && 0 <= j < |l.rows| && l.key.value(l.rows[i]) == l.key.value(l.rows[j]) ==>
      l.rendered[i] == l.rendered[j]
  }

  /** A cache consistent with the rows, under keys that tell rows apart as
      far as their html goes, changes nothing in the output or the aggregated
      data: the loop gives what it gives with no cache key at all, and the
      cache stays consistent. */
  lemma {:induction false} ConsistentCacheIsTransparent(l: RowsLoop, cache0: map<string, string>, data0: AggData, n: nat)
    requires n <= |l.rows| == |l.rendered| && l.key.Some?
    requires KeysFaithful(l) && Consistent(l, cache0)
    ensures var run := ConcatRun(l, cache0, data0, n);
      var plain := ConcatRun(l.(key := None), cache0, data0, n);
      Consistent(l, run.cache) && run.out == plain.out && run.data == plain.data
  {
    if n > 0 {
      ConsistentCacheIsTransparent(l, cache0, data0, n - 1);
      var prev := ConcatRun(l, cache0, data0, n - 1);
      var k := l.key.value(l.rows[n - 1]);
      if prev.out.Ok? && k !in prev.cache && l.rendered[n - 1].Ok? {
        var cache := prev.cache[k := l.rendered[n - 1].value];
        forall i | 0 <= i < |l.rows| && l.key.value(l.rows[i]) in cache
          ensures l.rendered[i] == Ok(cache[l.key.value(l.rows[i])])
        {
          if l.key.value(l.rows[i]) == k {
            assert l.rendered[i] == l.rendered[n - 1];
          }
        }
      }
    }
  }

  /** Without a cache key the buffer of the whole loop holds the html of each
      row as text, in order, exactly when every row renders. */
  lemma NoKeyBuffer(l: RowsLoop, cache0: map<string, string>, data0: AggData)
    requires |l.rows| == |l.rendered| && l.key.None?
    ensures var run := ConcatRun(l, cache0, data0, |l.rows|);
      run.cache == cache0 &&
      (Output(run).Ok? <==> forall i :: 0 <= i < |l.rows| ==> l.rendered[i].Ok?) &&
      (Output(run).Ok? ==>
         |Output(run).value| == |l.rows| &&
         forall i :: 0 <= i < |l.rows| ==> l.rendered[i].Ok? && Output(run).value[i] == Text(l.rendered[i].value))
  {
    var run := ConcatRun(l, cache0, data0, |l.rows|);
    NoKeyRendersDirectly(l, cache0, data0, |l.rows|);
    if run.out.Ok? {
      PiecesAt(run.out.value);
    }
  }

  /** Without a cache key the cache stays as it was, and the buffer holds the
      String of each entity's row as text, in order, exactly when every
      entity's row renders (`RowTextOf` fails exactly when `RowOf` does). */
  lemma NoKeyOutputMeaning(g: Grid, env: Env, cache0: map<string, string>, data0: AggData,
                           aggregator: Option<(Entity, AggData) -> AggData>)
    requires g.cacheKey.None?
    ensures var run := ConcatRun(LoopOf(g, env, aggregator), cache0, data0, |g.rows|);
      run.cache == cache0 &&
      (Output(run).Ok? <==> forall i :: 0 <= i < |g.rows| ==> RowTextOf(g, env, i, g.rows[i]).Ok?) &&
      (Output(run).Ok? ==>
         |Output(run).value| == |g.rows| &&
         forall i :: 0 <= i < |g.rows| ==>
           RowTextOf(g, env, i, g.rows[i]).Ok? && Output(run).value[i] == Text(RowTextOf(g, env, i, g.rows[i]).value))
  {
    var l := LoopOf(g, env, aggregator);
    NoKeyBuffer(l, cache0, data0);
    forall i | 0 <= i < |g.rows|
      ensures l.rendered[i] == RowTextOf(g, env, i, g.rows[i])
    {
    }
  }

  /** With a cache key, the buffer of the whole loop holds the cache entry
      for each row's key as text, in order; it is complete exactly when every
      row whose key is missing at its turn renders, and such a row's text is
      its rendering. */
  lemma KeyedBuffer(l: RowsLoop, cache0: map<string, string>, data0: AggData)
    requires |l.rows| == |l.rendered| && l.key.Some?
    ensures var run := ConcatRun(l, cache0, data0, |l.rows|);
      (Output(run).Ok? <==> forall i :: 0 <= i < |l.rows| ==> HitAt(l, cache0, data0, i) || l.rendered[i].Ok?) &&
      (Output(run).Ok? ==>
        |Output(run).value| == |l.rows| &&
        (forall i :: 0 <= i < |l.rows| ==>
          l.key.value(l.rows[i]) in run.cache && Output(run).value[i] == Text(run.cache[l.key.value(l.rows[i])])) &&
        forall i :: 0 <= i < |l.rows| && !HitAt(l, cache0, data0, i) ==>
          l.rendered[i].Ok? && Output(run).value[i] == Text(l.rendered[i].value))
  {
    var run := ConcatRun(l, cache0, data0, |l.rows|);
    KeyedRowsAreCacheEntries(l, cache0, data0, |l.rows|);
    KeyedRenderOnlyOnMiss(l, cache0, data0, |l.rows|);
    if run.out.Ok? {
      PiecesAt(run.out.value);
    }
  }

  /** With a cache key, the buffer holds, for each entity in order, the
      cache entry for its key as text; it is complete exactly when every
      entity whose key is missing at its turn renders, and such an entity's
      entry is the String of its row. An entity whose key is cached at its
      turn is not rendered: its row cannot make the loop fail. */
  lemma KeyedOutputMeaning(g: Grid, env: Env, cache0: map<string, string>, data0: AggData,
                           aggregator: Option<(Entity, AggData) -> AggData>)
    requires g.cacheKey.Some?
    ensures var l := LoopOf(g, env, aggregator);
      var run := ConcatRun(l, cache0, data0, |g.rows|);
      (Output(run).Ok? <==>
         forall i :: 0 <= i < |g.rows| ==> HitAt(l, cache0, data0, i) || RowTextOf(g, env, i, g.rows[i]).Ok?) &&
      (Output(run).Ok? ==>
        |Output(run).value| == |g.rows| &&
        (forall i :: 0 <= i < |g.rows| ==>
          g.cacheKey.value(g.rows[i]) in run.cache && Output(run).value[i] == Text(run.cache[g.cacheKey.value(g.rows[i])])) &&
        forall i :: 0 <= i < |g.rows| && !HitAt(l, cache0, data0, i) ==>
          RowTextOf(g, env, i, g.rows[i]).Ok? && Output(run).value[i] == Text(RowTextOf(g, env, i, g.rows[i]).value))
  {
    var l := LoopOf(g, env, aggregator);
    KeyedBuffer(l, cache0, data0);
    forall i | 0 <= i < |g.rows|
      ensures l.rendered[i] == RowTextOf(g, env, i, g.rows[i])
    {
    }
  }

  /** With a cache key under which every entity is already cached, the loop
      completes without rendering any row, leaves the cache as it was, and
      the buffer holds each entity's cached entry as text, in order. */
  lemma CachedGridIsNotRendered(g: Grid, env: Env, cache0: map<string, string>, data0: AggData,
                                aggregator: Option<(Entity, AggData) -> AggData>)
    requires g.cacheKey.Some? && forall i :: 0 <= i < |g.rows| ==> g.cacheKey.value(g.rows[i]) in cache0
    ensures var run := ConcatRun(LoopOf(g, env, aggregator), cache0, data0, |g.rows|);
      run.cache == cache0 && Output(run).Ok? && |Output(run).value| == |g.rows| &&
      forall i :: 0 <= i < |g.rows| ==> Output(run).value[i] == Text(cache0[g.cacheKey.value(g.rows[i])])
  {
    var l := LoopOf(g, env, aggregator);
    var run := ConcatRun(l, cache0, data0, |g.rows|);
    AllHitsIgnoreRendering(l, cache0, data0, |g.rows|);
    PiecesAt(run.out.value);
  }
}
