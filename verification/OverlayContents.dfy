/** What a chain of caches stands for: one flat map from names to objects. */
module OverlayContents {
  import opened ApiObjects
  import opened OverlaySpec

  type Contents = map<Key, Obj>

  /** What a view shows over a delegate that shows `base`: its own entry decides a key,
      if it has one. */
  ghost function Overlay(base: Contents, c: Cache): Contents {
    map k | k in base.Keys + c.Keys && (k in c ==> c[k].Live?) :: if k in c then c[k].obj else base[k]
  }

  ghost function Flat(chain: seq<Cache>): Contents {
    if chain == [] then map[] else Overlay(Flat(chain[1..]), chain[0])
  }

  /** `r` is the answer a plain map `m` gives for `k`. */
  ghost predicate Answers(m: Contents, k: Key, r: Result<Obj>) {
    if k in m then r == Ok(m[k]) else r.Err? && IsNotFound(r.error)
  }

  ghost predicate Named(m: Contents) {
    forall k :: k in m ==> m[k].key == k && k.name != ""
  }

  /** The delegate's chain `below` shows `base`; an empty chain means there is no delegate. */
  ghost predicate Shows(below: seq<Cache>, base: Contents) {
    && Named(base)
    && (below == [] ==> base == map[])
    && (below != [] ==> forall k {:trigger Lookup(below, k)} :: Answers(base, k, Lookup(below, k)))
  }

  ghost predicate Sound(l: Local, below: seq<Cache>, base: Contents) {
    Keyed(l.cache) && Shows(below, base)
  }
}
