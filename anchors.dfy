/** The anchor registry: a map from a link target (an internal destination or
    "#" followed by a heading id) to the link id the canvas handed out for it,
    filled lazily on first reference. Ids come from a counter on the canvas;
    `next` is the id the canvas will hand out next. */
module Anchors {

  /** Every stored id was handed out before `next`. */
  predicate AllBelow(links: map<string, int>, next: int)
  {
    forall key :: key in links ==> links[key] < next
  }

  /** No two targets share an id. */
  predicate Injective(links: map<string, int>)
  {
    forall a, b :: a in links && b in links && a != b ==> links[a] != links[b]
  }

  /** The outcome of looking a target up: its id, the registry afterwards and
      whether a new id had to be handed out. */
  datatype Resolution = Resolution(id: int, links: map<string, int>, isNew: bool)

  /** Look `key` up; on a miss take the canvas's next id and store it. */
  function Resolve(links: map<string, int>, next: int, key: string): (r: Resolution)
    ensures r.isNew <==> key !in links
    ensures key in r.links && r.links[key] == r.id
    ensures r.links.Keys == links.Keys + {key}
    ensures forall k :: k in links ==> r.links[k] == links[k]
    ensures r.isNew ==> r.id == next
  {
    if key in links then Resolution(links[key], links, false)
    else Resolution(next, links[key := next], true)
  }

  /** The counter after a lookup: it moves only when an id was handed out. */
  function NextAfter(r: Resolution, next: int): int
  {
    if r.isNew then next + 1 else next
  }

  /** A lookup keeps the registry's invariants: the stored ids stay below the
      counter and stay distinct, because a newly handed-out id is fresh. */
  lemma ResolveKeepsInvariant(links: map<string, int>, next: int, key: string)
    requires AllBelow(links, next) && Injective(links)
    ensures AllBelow(Resolve(links, next, key).links, NextAfter(Resolve(links, next, key), next))
    ensures Injective(Resolve(links, next, key).links)
  {
    var r := Resolve(links, next, key);
    if r.isNew {
      forall a, b | a in r.links && b in r.links && a != b
        ensures r.links[a] != r.links[b]
      {
        if a == key {
          assert r.links[b] == links[b] < next;
        } else if b == key {
          assert r.links[a] == links[a] < next;
        }
      }
    }
  }

  /** A target referenced twice gets an id at most once: the second lookup
      finds the first one's id and leaves the registry as it was. */
  lemma ResolveTwice(links: map<string, int>, next: int, key: string)
    ensures var first := Resolve(links, next, key);
            var second := Resolve(first.links, NextAfter(first, next), key);
            !second.isNew && second.id == first.id && second.links == first.links
  {
  }

  /** Looking up other targets in between does not change a target's id. */
  lemma ResolveStable(links: map<string, int>, next: int, key: string, other: string)
    requires key in links
    ensures Resolve(links, next, other).links[key] == links[key]
    ensures Resolve(Resolve(links, next, other).links, next + 1, key).id == links[key]
  {
  }

  /** Two different targets never receive the same id. */
  lemma DistinctTargetsDistinctIds(links: map<string, int>, next: int, a: string, b: string)
    requires AllBelow(links, next) && Injective(links)
    requires a != b
    ensures var ra := Resolve(links, next, a);
            var rb := Resolve(ra.links, NextAfter(ra, next), b);
            ra.id != rb.id
  {
    var ra := Resolve(links, next, a);
    ResolveKeepsInvariant(links, next, a);
    var rb := Resolve(ra.links, NextAfter(ra, next), b);
    assert rb.links[a] == ra.id;
  }
}
