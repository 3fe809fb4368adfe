/** Ruby's insertion-ordered Hash, as the renderer uses it for tag options:
    `h[k] = v` replaces the value of an existing key where it stands and
    appends a new key at the end; `h.update(other)` does `h[k] = v` for each
    pair of `other` in order. Keys are modelled as strings (a Symbol key and
    the String key with the same name are not told apart). */
module Attrs {
  import opened Prelude

  type Hash<V> = seq<(string, V)>

  /** `h[k]`: the value of the first entry with key `k`. */
  function Get<V>(h: Hash<V>, k: string): Option<V> {
    if |h| == 0 then None
    else if h[0].0 == k then Some(h[0].1)
    else Get(h[1..], k)
  }

  function Keys<V>(h: Hash<V>): seq<string> {
    if |h| == 0 then [] else [h[0].0] + Keys(h[1..])
  }

  /** `h[k] = v`. */
  function Put<V>(h: Hash<V>, k: string, v: V): (r: Hash<V>)
    ensures Get(r, k) == Some(v)
    ensures forall k' :: k' != k ==> Get(r, k') == Get(h, k')
    ensures Get(h, k).Some? ==> Keys(r) == Keys(h)
    ensures Get(h, k).None? ==> Keys(r) == Keys(h) + [k]
  {
    if |h| == 0 then [(k, v)]
    else if h[0].0 == k then [(k, v)] + h[1..]
    else [h[0]] + Put(h[1..], k, v)
  }

  /** The value the last pair of `ps` with key `k` carries, if any. */
  function LastValue<V>(ps: Hash<V>, k: string): Option<V> {
    if |ps| == 0 then None
    else if ps[|ps| - 1].0 == k then Some(ps[|ps| - 1].1)
    else LastValue(ps[..|ps| - 1], k)
  }

  /** `h.update(ps)`: the pairs of `ps` win, the last one of a repeated key
      winning, and every other key keeps the value it had in `h`. */
  function Update<V>(h: Hash<V>, ps: Hash<V>): (r: Hash<V>)
    ensures forall k :: Get(r, k) == if LastValue(ps, k).Some? then LastValue(ps, k) else Get(h, k)
  {
    if |ps| == 0 then h
    else Put(Update(h, ps[..|ps| - 1]), ps[|ps| - 1].0, ps[|ps| - 1].1)
  }

  /** `Update` never reorders or drops the keys of `h`: they come first, in
      their own order, followed by the new keys. */
  lemma {:induction false} UpdateKeepsKeyOrder<V>(h: Hash<V>, ps: Hash<V>)
    ensures |Keys(Update(h, ps))| >= |Keys(h)|
    ensures Keys(Update(h, ps))[..|Keys(h)|] == Keys(h)
  {
    if |ps| > 0 {
      var front := Update(h, ps[..|ps| - 1]);
      UpdateKeepsKeyOrder(h, ps[..|ps| - 1]);
      var k := ps[|ps| - 1].0;
      if Get(front, k).None? {
        assert Keys(Update(h, ps)) == Keys(front) + [k];
        assert (Keys(front) + [k])[..|Keys(h)|] == Keys(front)[..|Keys(h)|];
      }
    }
  }
}
