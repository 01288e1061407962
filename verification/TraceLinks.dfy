/**
 The links of a traceroute (services/trace-processor/extract_links.go).

 The hops of each probe are sorted by TTL, one hop is kept for each TTL, and neighbours make a link.
 The sort is not stable, and the probes come out of a map in any order.
 */
module TraceLinks {
  import opened Options
  import opened Sorting
  import opened Text

  /** A hop that did not respond has no address. */
  datatype Hop = Hop(probe: int, ttl: int, timeout: bool, addr: string, rtt: real)

  datatype Link = Link(probe: int, src: Option<string>, dst: Option<string>, gap: int, diffRtt: Option<real>)

  function AddrOf(h: Hop): Option<string> {
    if h.timeout then None else Some(h.addr)
  }

  function LinkOf(src: Hop, dst: Hop): Link {
    Link(src.probe, AddrOf(src), AddrOf(dst), dst.ttl - src.ttl,
         if src.timeout || dst.timeout then None else Some(dst.rtt - src.rtt))
  }

  function Key(probe: int, src: string, dst: string): string {
    PrintInt(probe) + ":" + src + "->" + dst
  }

  // ------------------------------------------------------------ one probe's path

  predicate Rising(path: seq<Hop>) {
    forall i, j :: 0 <= i < j < |path| ==> path[i].ttl < path[j].ttl
  }

  predicate Covers(path: seq<Hop>, ttl: int) {
    exists i :: 0 <= i < |path| && path[i].ttl == ttl
  }

  /** One hop of the probe for each TTL it has hops for, by rising TTL. */
  ghost predicate IsPath(hops: seq<Hop>, probe: int, path: seq<Hop>) {
    && Rising(path)
    && (forall i :: 0 <= i < |path| ==> path[i] in hops && path[i].probe == probe)
    && (forall h :: h in hops && h.probe == probe ==> Covers(path, h.ttl))
  }

  function KeyAt(path: seq<Hop>, i: nat): string
    requires 0 < i < |path|
  {
    Key(path[i].probe, path[i - 1].addr, path[i].addr)
  }

  /** No earlier link of the path has this link's key. */
  ghost predicate IsNew(path: seq<Hop>, i: nat)
    requires 0 < i < |path|
  {
    forall j :: 0 < j < i ==> KeyAt(path, j) != KeyAt(path, i)
  }

  /** The link that hop i adds, if any. */
  ghost function LinksAt(path: seq<Hop>, i: nat): seq<Link>
    requires i < |path|
  {
    if i > 0 && IsNew(path, i) then [LinkOf(path[i - 1], path[i])] else []
  }

  /** The links among the first n hops of a path. */
  ghost function PathLinks(path: seq<Hop>, n: nat): seq<Link>
    requires n <= |path|
  {
    if n == 0 then [] else PathLinks(path, n - 1) + LinksAt(path, n - 1)
  }

  // ----------------------------------------------------------------- all probes

  ghost predicate IsProbe(hops: seq<Hop>, probe: int) {
    exists i :: 0 <= i < |hops| && hops[i].probe == probe
  }

  ghost predicate NoTwice(order: seq<int>) {
    forall i, j :: 0 <= i < j < |order| ==> order[i] != order[j]
  }

  ghost predicate Lists(order: seq<int>, hops: seq<Hop>) {
    && (forall i :: 0 <= i < |order| ==> IsProbe(hops, order[i]))
    && (forall h :: h in hops ==> h.probe in order)
    && NoTwice(order)
  }

  ghost function AllLinks(paths: map<int, seq<Hop>>, order: seq<int>): seq<Link>
    requires forall i :: 0 <= i < |order| ==> order[i] in paths
  {
    if order == [] then []
    else
      var n := |order| - 1;
      AllLinks(paths, order[..n]) + PathLinks(paths[order[n]], |paths[order[n]]|)
  }

  ghost predicate ArePaths(hops: seq<Hop>, paths: map<int, seq<Hop>>, order: seq<int>) {
    forall i :: 0 <= i < |order| ==> order[i] in paths && IsPath(hops, order[i], paths[order[i]])
  }

  /** What an extraction may return, whatever the sort and the map do. */
  ghost predicate IsExtraction(hops: seq<Hop>, paths: map<int, seq<Hop>>, order: seq<int>, links: seq<Link>) {
    Lists(order, hops) && ArePaths(hops, paths, order) && links == AllLinks(paths, order)
  }

  // ------------------------------------------------------------- what a link is

  /** The link joins two hops of one probe with no hop of that probe at a TTL between theirs. */
  ghost predicate Adjacent(hops: seq<Hop>, link: Link, src: Hop, dst: Hop) {
    && src in hops && dst in hops && src.probe == dst.probe
    && link.probe == src.probe && link.gap == dst.ttl - src.ttl > 0
    && link.src == (if src.timeout then None else Some(src.addr))
    && link.dst == (if dst.timeout then None else Some(dst.addr))
    && link.diffRtt == (if src.timeout || dst.timeout then None else Some(dst.rtt - src.rtt))
    && forall h :: h in hops && h.probe == src.probe ==> !(src.ttl < h.ttl < dst.ttl)
  }

  ghost predicate JoinsNeighbours(hops: seq<Hop>, link: Link) {
    exists src, dst :: Adjacent(hops, link, src, dst)
  }

  lemma NeighboursAreAdjacent(hops: seq<Hop>, probe: int, path: seq<Hop>, i: nat)
    requires IsPath(hops, probe, path) && 0 < i < |path|
    ensures Adjacent(hops, LinkOf(path[i - 1], path[i]), path[i - 1], path[i])
  {
    var src, dst := path[i - 1], path[i];
    forall h | h in hops && h.probe == probe ensures !(src.ttl < h.ttl < dst.ttl) {
      var k :| 0 <= k < |path| && path[k].ttl == h.ttl;
      assert k <= i - 1 || k >= i;
    }
  }

  lemma OwnProbe(hops: seq<Hop>, probe: int, path: seq<Hop>, i: nat)
    requires IsPath(hops, probe, path) && i < |path|
    ensures path[i].probe == probe
  {
  }

  lemma {:induction false} PathLinksJoin(hops: seq<Hop>, probe: int, path: seq<Hop>, n: nat)
    requires IsPath(hops, probe, path) && n <= |path|
    ensures forall i :: 0 <= i < |PathLinks(path, n)| ==>
      JoinsNeighbours(hops, PathLinks(path, n)[i]) && PathLinks(path, n)[i].probe == probe
  {
    hide IsPath, IsNew;
    if n > 0 {
      PathLinksJoin(hops, probe, path, n - 1);
      if n > 1 {
        NeighboursAreAdjacent(hops, probe, path, n - 1);
        OwnProbe(hops, probe, path, n - 2);
      }
    }
  }

  /** Every link of an extraction has a positive gap and joins TTL-adjacent hops of one probe. */
  lemma {:induction false} EveryLinkJoinsNeighbours(hops: seq<Hop>, paths: map<int, seq<Hop>>, order: seq<int>)
    requires ArePaths(hops, paths, order)
    ensures forall i :: 0 <= i < |AllLinks(paths, order)| ==>
      JoinsNeighbours(hops, AllLinks(paths, order)[i]) && AllLinks(paths, order)[i].gap > 0
      && AllLinks(paths, order)[i].probe in order
  {
    hide IsPath;
    if order != [] {
      var n := |order| - 1;
      EveryLinkJoinsNeighbours(hops, paths, order[..n]);
      PathLinksJoin(hops, order[n], paths[order[n]], |paths[order[n]]|);
    }
  }

  // -------------------------------------------------------------- no repeats

  /** Hops that timed out have no address. */
  predicate TimeoutsAreBlank(hops: seq<Hop>) {
    forall i :: 0 <= i < |hops| ==> (hops[i].timeout ==> hops[i].addr == "")
  }

  lemma PathIsBlank(hops: seq<Hop>, probe: int, path: seq<Hop>)
    requires IsPath(hops, probe, path) && TimeoutsAreBlank(hops)
    ensures TimeoutsAreBlank(path) && forall i :: 0 <= i < |path| ==> path[i].probe == probe
  {
  }

  predicate Repeats(a: Link, b: Link) {
    a.probe == b.probe && a.src == b.src && a.dst == b.dst
  }

  ghost predicate Distinct(links: seq<Link>) {
    forall i, j :: 0 <= i < j < |links| ==> !Repeats(links[i], links[j])
  }

  ghost predicate Arises(path: seq<Hop>, n: nat, link: Link)
    requires n <= |path|
  {
    exists i :: 0 < i < n && IsNew(path, i) && link == LinkOf(path[i - 1], path[i])
  }

  lemma {:induction false} LinksArise(path: seq<Hop>, n: nat)
    requires n <= |path|
    ensures forall k :: 0 <= k < |PathLinks(path, n)| ==> Arises(path, n, PathLinks(path, n)[k])
  {
    hide IsNew;
    if n > 0 {
      LinksArise(path, n - 1);
      if n > 1 && IsNew(path, n - 1) {
        assert Arises(path, n, LinkOf(path[n - 2], path[n - 1]));
      }
    }
  }

  /** Two links with the same ends have the same key, so the second is dropped. */
  lemma NewDoesNotRepeat(path: seq<Hop>, i: nat, link: Link)
    requires 0 < i < |path| && TimeoutsAreBlank(path) && IsNew(path, i) && Arises(path, i, link)
    requires forall k :: 0 <= k < |path| ==> path[k].probe == path[0].probe
    ensures !Repeats(link, LinkOf(path[i - 1], path[i]))
  {
    var j :| 0 < j < i && IsNew(path, j) && link == LinkOf(path[j - 1], path[j]);
    assert KeyAt(path, j) != KeyAt(path, i);
  }

  lemma {:induction false} PathLinksAreDistinct(path: seq<Hop>, n: nat)
    requires n <= |path| && TimeoutsAreBlank(path)
    requires forall k :: 0 <= k < |path| ==> path[k].probe == path[0].probe
    ensures Distinct(PathLinks(path, n))
  {
    hide IsNew, Arises, TimeoutsAreBlank, Repeats;
    if n > 0 {
      PathLinksAreDistinct(path, n - 1);
      LinksArise(path, n - 1);
      var before := PathLinks(path, n - 1);
      if n > 1 && IsNew(path, n - 1) {
        forall k | 0 <= k < |before| ensures !Repeats(before[k], LinkOf(path[n - 2], path[n - 1])) {
          NewDoesNotRepeat(path, n - 1, before[k]);
        }
      }
    }
  }

  lemma DistinctTogether(a: seq<Link>, b: seq<Link>)
    requires Distinct(a) && Distinct(b)
    requires forall i, j :: 0 <= i < |a| && 0 <= j < |b| ==> a[i].probe != b[j].probe
    ensures Distinct(a + b)
  {
  }

  lemma NothingRepeats()
    ensures Distinct([])
  {
  }

  /** No extraction has two links of one probe with the same ends. */
  lemma {:induction false} NoLinkRepeats(hops: seq<Hop>, paths: map<int, seq<Hop>>, order: seq<int>)
    requires ArePaths(hops, paths, order) && TimeoutsAreBlank(hops)
    requires NoTwice(order)
    ensures Distinct(AllLinks(paths, order))
  {
    hide IsPath, TimeoutsAreBlank, Distinct;
    if order == [] {
      NothingRepeats();
    } else {
      var n := |order| - 1;
      var path := paths[order[n]];
      NoLinkRepeats(hops, paths, order[..n]);
      EveryLinkJoinsNeighbours(hops, paths, order[..n]);
      PathLinksJoin(hops, order[n], path, |path|);
      PathIsBlank(hops, order[n], path);
      PathLinksAreDistinct(path, |path|);
      DistinctTogether(AllLinks(paths, order[..n]), PathLinks(path, |path|));
    }
  }

  // ---------------------------------------------------------- and none is lost

  predicate HasArrow(s: string) {
    exists i :: 0 <= i < |s| - 1 && s[i] == '-' && s[i + 1] == '>'
  }

  /** Where an arrow was put after an address, there is none before it. */
  lemma FirstArrow(a: string, b: string)
    requires !HasArrow(a)
    ensures var s := a + "->" + b;
      && s[|a|] == '-' && s[|a| + 1] == '>'
      && forall i :: 0 <= i < |a| ==> !(s[i] == '-' && s[i + 1] == '>')
  {
  }

  lemma ArrowSplits(a: string, b: string, c: string, d: string)
    requires a + "->" + b == c + "->" + d && !HasArrow(a) && !HasArrow(c)
    ensures a == c && b == d
  {
    hide HasArrow;
    FirstArrow(a, b);
    FirstArrow(c, d);
    var s := a + "->" + b;
    assert |a| == |c|;
    assert a == s[..|a|] == c;
    assert b == s[|a| + 2..] == d;
  }

  lemma FirstColon(a: string, b: string)
    requires ':' !in a
    ensures var s := a + (":" + b); s[|a|] == ':' && forall i :: 0 <= i < |a| ==> s[i] != ':'
  {
  }

  lemma ColonSplits(a: string, b: string, c: string, d: string)
    requires a + (":" + b) == c + (":" + d) && ':' !in a && ':' !in c
    ensures a == c && b == d
  {
    FirstColon(a, b);
    FirstColon(c, d);
    var s := a + (":" + b);
    assert |a| == |c|;
    assert a == s[..|a|] == c;
    assert b == s[|a| + 1..] == d;
  }

  lemma PrintedHasNoColon(n: int)
    ensures ':' !in PrintInt(n)
  {
    hide Decimal, DigitsValue;
    assert forall i :: 0 <= i < |PrintInt(n)| ==> PrintInt(n)[i] != ':' by {
      var d := Decimal(if n < 0 then -n else n);
      assert forall i :: 0 <= i < |d| ==> IsDigit(d[i]);
    }
  }

  lemma KeySplits(p: int, a: string, b: string, q: int, c: string, d: string)
    requires Key(p, a, b) == Key(q, c, d)
    ensures p == q && a + "->" + b == c + "->" + d
  {
    hide PrintInt;
    PrintedHasNoColon(p);
    PrintedHasNoColon(q);
    assert Key(p, a, b) == PrintInt(p) + (":" + (a + "->" + b));
    assert Key(q, c, d) == PrintInt(q) + (":" + (c + "->" + d));
    ColonSplits(PrintInt(p), a + "->" + b, PrintInt(q), c + "->" + d);
    PrintIntIsInjective(p, q);
  }

  ghost predicate Linked(links: seq<Link>, link: Link) {
    exists k :: 0 <= k < |links| && Repeats(links[k], link)
  }

  lemma LinkedInMore(a: seq<Link>, b: seq<Link>, link: Link)
    requires Linked(a, link)
    ensures Linked(a + b, link)
  {
    var k :| 0 <= k < |a| && Repeats(a[k], link);
    assert (a + b)[k] == a[k];
  }

  lemma {:induction false} LinkedStays(path: seq<Hop>, m: nat, n: nat, link: Link)
    requires m <= n <= |path| && Linked(PathLinks(path, m), link)
    ensures Linked(PathLinks(path, n), link)
    decreases n
  {
    hide LinksAt, Linked;
    if m < n {
      LinkedStays(path, m, n - 1, link);
      LinkedInMore(PathLinks(path, n - 1), LinksAt(path, n - 1), link);
    }
  }

  /** Hops that timed out have no address, and all others have one. */
  predicate WellFormed(hops: seq<Hop>) {
    forall i :: 0 <= i < |hops| ==> (hops[i].timeout <==> hops[i].addr == "")
  }

  lemma SameEnds(links: seq<Link>, a: Link, b: Link)
    requires Linked(links, a) && Repeats(a, b)
    ensures Linked(links, b)
  {
    var k :| 0 <= k < |links| && Repeats(links[k], a);
    assert Repeats(links[k], b);
  }

  lemma NewIsLinked(path: seq<Hop>, i: nat)
    requires 0 < i < |path| && IsNew(path, i)
    ensures Linked(PathLinks(path, |path|), LinkOf(path[i - 1], path[i]))
  {
    hide IsNew, KeyAt;
    var links := PathLinks(path, i + 1);
    assert links[|links| - 1] == LinkOf(path[i - 1], path[i]);
    LinkedStays(path, i + 1, |path|, LinkOf(path[i - 1], path[i]));
  }

  lemma SameEndsSameKey(path: seq<Hop>, i: nat, j: nat)
    requires 0 < i < |path| && 0 < j < |path| && TimeoutsAreBlank(path) && path[i].probe == path[j].probe
    requires Repeats(LinkOf(path[i - 1], path[i]), LinkOf(path[j - 1], path[j]))
    ensures KeyAt(path, i) == KeyAt(path, j)
  {
  }

  lemma LinkedFrom(path: seq<Hop>, link: Link) returns (j: nat)
    requires Linked(PathLinks(path, |path|), link)
    ensures 0 < j < |path| && IsNew(path, j) && Repeats(LinkOf(path[j - 1], path[j]), link)
  {
    hide IsNew, PathLinks, Repeats, LinkOf;
    var links := PathLinks(path, |path|);
    var k :| 0 <= k < |links| && Repeats(links[k], link);
    LinksArise(path, |path|);
    assert Arises(path, |path|, links[k]);
    j :| 0 < j < |path| && IsNew(path, j) && links[k] == LinkOf(path[j - 1], path[j]);
  }

  lemma NewIsFirst(path: seq<Hop>, i: nat, j: nat)
    requires 0 < i < |path| && 0 < j < |path| && IsNew(path, i) && IsNew(path, j)
    requires KeyAt(path, i) == KeyAt(path, j)
    ensures i == j
  {
  }

  lemma LinkedByFirst(path: seq<Hop>, i: nat, first: nat)
    requires 0 < first <= i < |path| && TimeoutsAreBlank(path)
    requires forall k :: 0 <= k < |path| ==> path[k].probe == path[0].probe
    requires IsNew(path, first) && KeyAt(path, first) == KeyAt(path, i)
    requires Linked(PathLinks(path, |path|), LinkOf(path[i - 1], path[i]))
    ensures Repeats(LinkOf(path[first - 1], path[first]), LinkOf(path[i - 1], path[i]))
  {
    hide KeyAt, TimeoutsAreBlank, LinkOf, IsNew, PathLinks, Linked, Repeats;
    var j := LinkedFrom(path, LinkOf(path[i - 1], path[i]));
    SameEndsSameKey(path, j, i);
    NewIsFirst(path, j, first);
  }

  /** Two neighbours have a link with their ends exactly if the first two neighbours on the path that are
      printed to the same key have the same ends. */
  lemma PairIsLinkedIff(path: seq<Hop>, i: nat, first: nat)
    requires 0 < first <= i < |path| && TimeoutsAreBlank(path)
    requires forall k :: 0 <= k < |path| ==> path[k].probe == path[0].probe
    requires IsNew(path, first) && KeyAt(path, first) == KeyAt(path, i)
    ensures Linked(PathLinks(path, |path|), LinkOf(path[i - 1], path[i]))
       <==> Repeats(LinkOf(path[first - 1], path[first]), LinkOf(path[i - 1], path[i]))
  {
    hide KeyAt, TimeoutsAreBlank, LinkOf, IsNew, PathLinks, Linked, Repeats;
    var link, firstLink := LinkOf(path[i - 1], path[i]), LinkOf(path[first - 1], path[first]);
    NewIsLinked(path, first);
    if Repeats(firstLink, link) {
      SameEnds(PathLinks(path, |path|), firstLink, link);
    }
    if Linked(PathLinks(path, |path|), link) {
      LinkedByFirst(path, i, first);
    }
  }

  lemma {:induction false} FirstOfKey(path: seq<Hop>, i: nat) returns (first: nat)
    requires 0 < i < |path|
    ensures 0 < first <= i && IsNew(path, first) && KeyAt(path, first) == KeyAt(path, i)
    decreases i
  {
    if IsNew(path, i) {
      first := i;
    } else {
      var j :| 0 < j < i && KeyAt(path, j) == KeyAt(path, i);
      first := FirstOfKey(path, j);
    }
  }

  lemma BlankIsWellFormed(path: seq<Hop>)
    requires WellFormed(path)
    ensures TimeoutsAreBlank(path)
  {
  }

  /** If no address contains an arrow, every two neighbours of a path have a link with their ends. */
  lemma EveryPairIsLinked(path: seq<Hop>, i: nat)
    requires 0 < i < |path| && WellFormed(path)
    requires forall k :: 0 <= k < |path| ==> path[k].probe == path[0].probe && !HasArrow(path[k].addr)
    ensures Linked(PathLinks(path, |path|), LinkOf(path[i - 1], path[i]))
  {
    hide HasArrow, PathLinks, Linked, IsNew;
    var j := FirstOfKey(path, i);
    BlankIsWellFormed(path);
    KeySplits(path[j].probe, path[j - 1].addr, path[j].addr, path[i].probe, path[i - 1].addr, path[i].addr);
    ArrowSplits(path[j - 1].addr, path[j].addr, path[i - 1].addr, path[i].addr);
    PairIsLinkedIff(path, i, j);
  }

  // -------------------------------------------------- one path for each probe

  /** No two different hops of a probe have the same TTL. */
  ghost predicate UniqueTtls(hops: seq<Hop>) {
    forall h, h' :: h in hops && h' in hops && h.probe == h'.probe && h.ttl == h'.ttl ==> h == h'
  }

  ghost predicate SameHops(hops: seq<Hop>, hops': seq<Hop>) {
    forall h :: h in hops <==> h in hops'
  }

  lemma PathHas(hops: seq<Hop>, probe: int, path: seq<Hop>, h: Hop)
    requires UniqueTtls(hops) && IsPath(hops, probe, path) && h in hops && h.probe == probe
    ensures exists k :: 0 <= k < |path| && path[k] == h
  {
    assert Covers(path, h.ttl);
    var k :| 0 <= k < |path| && path[k].ttl == h.ttl;
    assert path[k] == h;
  }

  lemma BeforeIsLower(path: seq<Hop>, path': seq<Hop>, i: nat)
    requires Rising(path) && i < |path| && i <= |path'| && path[..i] == path'[..i]
    ensures forall j :: 0 <= j < i ==> path'[j].ttl < path[i].ttl
  {
    forall j | 0 <= j < i ensures path'[j].ttl < path[i].ttl {
      assert path'[j] == path'[..i][j] == path[..i][j];
    }
  }

  /** Where the paths agree up to i, hop i of one is in the other, and not before i. */
  lemma FoundAhead(
    hops: seq<Hop>, hops': seq<Hop>, probe: int, path: seq<Hop>, path': seq<Hop>, i: nat) returns (k: nat)
    requires UniqueTtls(hops') && SameHops(hops, hops') && IsPath(hops, probe, path) && IsPath(hops', probe, path')
    requires i < |path| && i <= |path'| && path[..i] == path'[..i]
    ensures i <= k < |path'| && path'[k] == path[i]
  {
    hide UniqueTtls;
    PathHas(hops', probe, path', path[i]);
    k :| 0 <= k < |path'| && path'[k] == path[i];
    BeforeIsLower(path, path', i);
  }

  lemma SameIsUnique(hops: seq<Hop>, hops': seq<Hop>)
    requires UniqueTtls(hops) && SameHops(hops, hops')
    ensures UniqueTtls(hops') && SameHops(hops', hops)
  {
  }

  lemma PathIsRising(hops: seq<Hop>, probe: int, path: seq<Hop>)
    requires IsPath(hops, probe, path)
    ensures Rising(path)
  {
  }

  lemma NextAgrees(hops: seq<Hop>, hops': seq<Hop>, probe: int, path: seq<Hop>, path': seq<Hop>, i: nat)
    requires UniqueTtls(hops) && SameHops(hops, hops') && IsPath(hops, probe, path) && IsPath(hops', probe, path')
    requires i < |path| && i <= |path'| && path[..i] == path'[..i]
    ensures i < |path'| && path[i] == path'[i]
  {
    SameIsUnique(hops, hops');
    hide UniqueTtls, SameHops, IsPath;
    var k := FoundAhead(hops, hops', probe, path, path', i);
    var m := FoundAhead(hops', hops, probe, path', path, i);
    PathIsRising(hops, probe, path);
    PathIsRising(hops', probe, path');
    assert path[i].ttl <= path[m].ttl && path'[i].ttl <= path'[k].ttl;
  }

  lemma {:induction false} PathsAgree(
    hops: seq<Hop>, hops': seq<Hop>, probe: int, path: seq<Hop>, path': seq<Hop>, n: nat)
    requires UniqueTtls(hops) && SameHops(hops, hops') && IsPath(hops, probe, path) && IsPath(hops', probe, path')
    requires n <= |path|
    ensures n <= |path'| && path[..n] == path'[..n]
    decreases n
  {
    if n > 0 {
      var i := n - 1;
      PathsAgree(hops, hops', probe, path, path', i);
      NextAgrees(hops, hops', probe, path, path', i);
      assert path[..n] == path[..i] + [path[i]];
      assert path'[..n] == path'[..i] + [path'[i]];
    }
  }

  lemma PathIsUnique(hops: seq<Hop>, hops': seq<Hop>, probe: int, path: seq<Hop>, path': seq<Hop>)
    requires UniqueTtls(hops) && SameHops(hops, hops') && IsPath(hops, probe, path) && IsPath(hops', probe, path')
    ensures path == path'
  {
    assert UniqueTtls(hops');
    PathsAgree(hops, hops', probe, path, path', |path|);
    PathsAgree(hops', hops, probe, path', path, |path'|);
    assert path[..|path|] == path && path'[..|path'|] == path';
  }

  // ------------------------------------------------ up to the round-trip times

  /** What the ends of a link are made of: all but the round-trip time. */
  function Bare(h: Hop): Hop {
    h.(rtt := 0.0)
  }

  function Bared(hops: seq<Hop>): seq<Hop> {
    seq(|hops|, i requires 0 <= i < |hops| => Bare(hops[i]))
  }

  /** Hops of a probe with the same TTL agree in whether they responded and in their address. */
  ghost predicate TtlsAgree(hops: seq<Hop>) {
    forall h, h' :: h in hops && h' in hops && h.probe == h'.probe && h.ttl == h'.ttl ==> Bare(h) == Bare(h')
  }

  lemma BaredHas(hops: seq<Hop>, h: Hop)
    ensures h in hops ==> Bare(h) in Bared(hops)
    ensures h in Bared(hops) ==> exists g :: g in hops && Bare(g) == h
  {
    if h in hops {
      var i :| 0 <= i < |hops| && hops[i] == h;
      assert Bared(hops)[i] == Bare(h);
    }
    if h in Bared(hops) {
      var i :| 0 <= i < |hops| && Bared(hops)[i] == h;
      assert hops[i] in hops && Bare(hops[i]) == h;
    }
  }

  lemma BaredIsUnique(hops: seq<Hop>)
    requires TtlsAgree(hops)
    ensures UniqueTtls(Bared(hops))
  {
    hide Bared;
    forall h, h' | h in Bared(hops) && h' in Bared(hops) && h.probe == h'.probe && h.ttl == h'.ttl
      ensures h == h'
    {
      BaredHas(hops, h);
      BaredHas(hops, h');
    }
  }

  lemma BaredIsSame(hops: seq<Hop>, hops': seq<Hop>)
    requires SameHops(hops, hops')
    ensures SameHops(Bared(hops), Bared(hops'))
  {
    hide Bared;
    forall h ensures h in Bared(hops) <==> h in Bared(hops') {
      BaredHas(hops, h);
      BaredHas(hops', h);
      forall g | g in hops ensures Bare(g) in Bared(hops) && Bare(g) in Bared(hops') {
        BaredHas(hops, g);
        BaredHas(hops', g);
      }
    }
  }

  lemma BaredIsPath(hops: seq<Hop>, probe: int, path: seq<Hop>)
    requires IsPath(hops, probe, path)
    ensures IsPath(Bared(hops), probe, Bared(path))
  {
    forall i | 0 <= i < |path| ensures Bared(path)[i] in Bared(hops) {
      BaredHas(hops, path[i]);
    }
    forall h | h in Bared(hops) && h.probe == probe ensures Covers(Bared(path), h.ttl) {
      BaredHas(hops, h);
      var g :| g in hops && Bare(g) == h;
      assert Covers(path, g.ttl);
      var i :| 0 <= i < |path| && path[i].ttl == g.ttl;
      assert Bared(path)[i].ttl == h.ttl;
    }
  }

  lemma BaredPathIsUnique(hops: seq<Hop>, hops': seq<Hop>, probe: int, path: seq<Hop>, path': seq<Hop>)
    requires TtlsAgree(hops) && SameHops(hops, hops') && IsPath(hops, probe, path) && IsPath(hops', probe, path')
    ensures Bared(path) == Bared(path')
  {
    hide TtlsAgree, UniqueTtls, SameHops, IsPath, Bared;
    BaredIsUnique(hops);
    BaredIsSame(hops, hops');
    BaredIsPath(hops, probe, path);
    BaredIsPath(hops', probe, path');
    PathIsUnique(Bared(hops), Bared(hops'), probe, Bared(path), Bared(path'));
  }

  // ---------------------------------------------------- and when it is not one

  function Inserted(path: seq<Hop>, h: Hop): seq<Hop> {
    if path == [] || path[|path| - 1].ttl < h.ttl then path + [h]
    else Inserted(path[..|path| - 1], h) + [path[|path| - 1]]
  }

  lemma {:induction false} InsertedHas(path: seq<Hop>, h: Hop, g: Hop)
    ensures g in Inserted(path, h) <==> g in path || g == h
  {
    if path != [] && path[|path| - 1].ttl >= h.ttl {
      InsertedHas(path[..|path| - 1], h, g);
      assert path == path[..|path| - 1] + [path[|path| - 1]];
    }
  }

  lemma {:induction false} InsertedIsRising(path: seq<Hop>, h: Hop)
    requires Rising(path) && !Covers(path, h.ttl)
    ensures Rising(Inserted(path, h))
  {
    if path != [] && path[|path| - 1].ttl >= h.ttl {
      var n := |path| - 1;
      var less := Inserted(path[..n], h);
      assert !Covers(path[..n], h.ttl);
      InsertedIsRising(path[..n], h);
      forall i | 0 <= i < |less| ensures less[i].ttl < path[n].ttl {
        InsertedHas(path[..n], h, less[i]);
      }
    }
  }

  lemma CoversSame(path: seq<Hop>, path': seq<Hop>, ttl: int)
    requires Covers(path, ttl) && forall g :: g in path ==> g in path'
    ensures Covers(path', ttl)
  {
    var i :| 0 <= i < |path| && path[i].ttl == ttl;
    assert path[i] in path';
  }

  lemma CoversHop(path: seq<Hop>, h: Hop)
    requires h in path
    ensures Covers(path, h.ttl)
  {
  }

  lemma RoutedThrough(hops: seq<Hop>, probe: int, path: seq<Hop>, h: Hop)
    requires IsPath(hops, probe, path) && h.probe == probe && !Covers(path, h.ttl)
    ensures IsPath(hops + [h], probe, Inserted(path, h))
  {
    var path' := Inserted(path, h);
    InsertedIsRising(path, h);
    hide Covers, Inserted, Rising;
    forall g ensures g in path' <==> g in path || g == h {
      InsertedHas(path, h, g);
    }
    assert forall i :: 0 <= i < |path'| ==> path'[i] in path';
    forall g | g in hops + [h] && g.probe == probe ensures Covers(path', g.ttl) {
      if g in hops {
        CoversSame(path, path', g.ttl);
      } else {
        CoversHop(path', h);
      }
    }
  }

  lemma OneHopMore(hops: seq<Hop>, probe: int, path: seq<Hop>, h: Hop) returns (path': seq<Hop>)
    requires IsPath(hops, probe, path)
    ensures IsPath(hops + [h], probe, path')
  {
    if h.probe == probe && !Covers(path, h.ttl) {
      RoutedThrough(hops, probe, path, h);
      path' := Inserted(path, h);
    } else {
      path' := path;
    }
  }

  lemma {:induction false} SomePath(hops: seq<Hop>, probe: int) returns (path: seq<Hop>)
    ensures IsPath(hops, probe, path)
  {
    if hops == [] {
      path := [];
    } else {
      hide IsPath;
      var n := |hops| - 1;
      path := SomePath(hops[..n], probe);
      path := OneHopMore(hops[..n], probe, path, hops[n]);
      assert hops == hops[..n] + [hops[n]];
    }
  }

  lemma Rerouted(hops: seq<Hop>, probe: int, path: seq<Hop>, k: nat, h: Hop)
    requires IsPath(hops, probe, path) && k < |path| && h in hops && h.probe == probe && h.ttl == path[k].ttl
    ensures IsPath(hops, probe, path[k := h])
  {
    forall ttl | Covers(path, ttl) ensures Covers(path[k := h], ttl) {
      var i :| 0 <= i < |path| && path[i].ttl == ttl;
      assert path[k := h][i].ttl == ttl;
    }
  }

  /** Of two hops with the same TTL, the path of the probe may go through either. */
  lemma EitherMayWin(hops: seq<Hop>, h: Hop, h': Hop) returns (path: seq<Hop>, path': seq<Hop>, k: nat)
    requires h in hops && h' in hops && h.probe == h'.probe && h.ttl == h'.ttl
    ensures IsPath(hops, h.probe, path) && IsPath(hops, h.probe, path')
    ensures k < |path| && k < |path'| && path[k] == h && path'[k] == h'
  {
    path := SomePath(hops, h.probe);
    assert Covers(path, h.ttl);
    k :| 0 <= k < |path| && path[k].ttl == h.ttl;
    Rerouted(hops, h.probe, path, k, h);
    Rerouted(hops, h.probe, path, k, h');
    path, path' := path[k := h], path[k := h'];
  }

  ghost predicate OnePath(hops: seq<Hop>, probe: int) {
    forall path, path' :: IsPath(hops, probe, path) && IsPath(hops, probe, path') ==> path == path'
  }

  ghost predicate OneBarePath(hops: seq<Hop>, probe: int) {
    forall path, path' :: IsPath(hops, probe, path) && IsPath(hops, probe, path') ==> Bared(path) == Bared(path')
  }

  /** Each probe has one possible path exactly if no two of its hops share a TTL. */
  lemma PathIsUniqueIff(hops: seq<Hop>)
    ensures UniqueTtls(hops) <==> forall probe :: OnePath(hops, probe)
  {
    hide IsPath;
    if UniqueTtls(hops) {
      forall probe, path, path' | IsPath(hops, probe, path) && IsPath(hops, probe, path') ensures path == path' {
        PathIsUnique(hops, hops, probe, path, path');
      }
    } else {
      var h, h' :| h in hops && h' in hops && h.probe == h'.probe && h.ttl == h'.ttl && h != h';
      var path, path', k := EitherMayWin(hops, h, h');
      assert path[k] != path'[k];
      assert !OnePath(hops, h.probe);
    }
  }

  /** The addresses on each probe's path are fixed exactly if its hops with the same TTL agree in them. */
  lemma AddressesAreUniqueIff(hops: seq<Hop>)
    ensures TtlsAgree(hops) <==> forall probe :: OneBarePath(hops, probe)
  {
    hide IsPath;
    if TtlsAgree(hops) {
      forall probe, path, path' | IsPath(hops, probe, path) && IsPath(hops, probe, path')
        ensures Bared(path) == Bared(path')
      {
        BaredPathIsUnique(hops, hops, probe, path, path');
      }
    } else {
      var h, h' :| h in hops && h' in hops && h.probe == h'.probe && h.ttl == h'.ttl && Bare(h) != Bare(h');
      var path, path', k := EitherMayWin(hops, h, h');
      assert Bared(path)[k] != Bared(path')[k];
      assert !OneBarePath(hops, h.probe);
    }
  }

  // ------------------------------------------------------------------ extraction

  predicate TtlAtMost(a: Hop, b: Hop) {
    a.ttl <= b.ttl
  }

  ghost predicate ByTtl(s: seq<Hop>) {
    Sorted(TtlAtMost, s)
  }

  /** The hop comes before all others of its TTL. */
  ghost predicate IsFirst(sorted: seq<Hop>, h: Hop) {
    exists k :: 0 <= k < |sorted| && sorted[k] == h && forall j :: 0 <= j < k ==> sorted[j].ttl != h.ttl
  }

  /** The first hop of each TTL, by rising TTL. */
  ghost predicate Thins(path: seq<Hop>, sorted: seq<Hop>) {
    && Rising(path)
    && (forall i :: 0 <= i < |path| ==> IsFirst(sorted, path[i]))
    && (forall i :: 0 <= i < |sorted| ==> Covers(path, sorted[i].ttl))
  }

  lemma NothingToThin()
    ensures Thins([], [])
  {
  }

  lemma FirstStays(sorted: seq<Hop>, h: Hop, next: Hop)
    requires IsFirst(sorted, h)
    ensures IsFirst(sorted + [next], h)
  {
    var k :| 0 <= k < |sorted| && sorted[k] == h && forall j :: 0 <= j < k ==> sorted[j].ttl != h.ttl;
    assert (sorted + [next])[k] == h;
  }

  lemma NewTtlIsFirst(path: seq<Hop>, sorted: seq<Hop>, h: Hop)
    requires Thins(path, sorted) && (path != [] ==> path[|path| - 1].ttl < h.ttl)
    ensures IsFirst(sorted + [h], h)
  {
    forall j | 0 <= j < |sorted| ensures sorted[j].ttl != h.ttl {
      assert Covers(path, sorted[j].ttl);
    }
    assert (sorted + [h])[|sorted|] == h;
  }

  lemma CoversMore(path: seq<Hop>, h: Hop)
    ensures forall ttl :: Covers(path, ttl) ==> Covers(path + [h], ttl)
    ensures Covers(path + [h], h.ttl)
  {
    forall ttl | Covers(path, ttl) ensures Covers(path + [h], ttl) {
      var i :| 0 <= i < |path| && path[i].ttl == ttl;
      assert (path + [h])[i].ttl == ttl;
    }
    assert (path + [h])[|path|] == h;
  }

  lemma LastIsHighest(sorted: seq<Hop>, path: seq<Hop>, i: nat)
    requires ByTtl(sorted) && i < |sorted|
    requires i == 0 ==> path == []
    requires i > 0 ==> path != [] && path[|path| - 1].ttl == sorted[i - 1].ttl && sorted[i].ttl != sorted[i - 1].ttl
    ensures path != [] ==> path[|path| - 1].ttl < sorted[i].ttl
  {
  }

  lemma FirstsStay(path: seq<Hop>, sorted: seq<Hop>, h: Hop)
    requires forall i :: 0 <= i < |path| ==> IsFirst(sorted, path[i])
    ensures forall i :: 0 <= i < |path| ==> IsFirst(sorted + [h], path[i])
  {
    hide IsFirst;
    forall i | 0 <= i < |path| ensures IsFirst(sorted + [h], path[i]) {
      FirstStays(sorted, path[i], h);
    }
  }

  lemma RisesByOneMore(path: seq<Hop>, h: Hop)
    requires Rising(path) && (path != [] ==> path[|path| - 1].ttl < h.ttl)
    ensures Rising(path + [h])
  {
  }

  lemma ThinsByOneMore(path: seq<Hop>, sorted: seq<Hop>, h: Hop)
    requires Thins(path, sorted) && (path != [] ==> path[|path| - 1].ttl < h.ttl)
    ensures Thins(path + [h], sorted + [h])
  {
    hide Covers, IsFirst, Rising;
    NewTtlIsFirst(path, sorted, h);
    RisesByOneMore(path, h);
    FirstsStay(path, sorted, h);
    CoversMore(path, h);
  }

  lemma ThinsAlready(path: seq<Hop>, sorted: seq<Hop>, h: Hop)
    requires Thins(path, sorted) && path != [] && path[|path| - 1].ttl == h.ttl
    ensures Thins(path, sorted + [h])
  {
    assert Covers(path, h.ttl);
    hide Covers, IsFirst, Rising;
    FirstsStay(path, sorted, h);
  }

  method Dedup(sorted: seq<Hop>) returns (path: seq<Hop>)
    requires ByTtl(sorted)
    ensures Thins(path, sorted)
  {
    hide Thins, ByTtl;
    path := [];
    NothingToThin();
    for i := 0 to |sorted|
      invariant Thins(path, sorted[..i])
      invariant i == 0 ==> path == []
      invariant i > 0 ==> path != [] && path[|path| - 1].ttl == sorted[i - 1].ttl
    {
      assert sorted[..i + 1] == sorted[..i] + [sorted[i]];
      if i == 0 || sorted[i].ttl != sorted[i - 1].ttl {
        LastIsHighest(sorted, path, i);
        ThinsByOneMore(path, sorted[..i], sorted[i]);
        path := path + [sorted[i]];
      } else {
        ThinsAlready(path, sorted[..i], sorted[i]);
      }
    }
    assert sorted[..|sorted|] == sorted;
  }

  /** The hops of one probe, in the order of the trace. */
  function OfProbe(hops: seq<Hop>, probe: int): seq<Hop> {
    if hops == [] then []
    else
      var n := |hops| - 1;
      OfProbe(hops[..n], probe) + if hops[n].probe == probe then [hops[n]] else []
  }

  /** The groups are the hops of each probe. */
  ghost predicate AreGroups(groups: map<int, seq<Hop>>, hops: seq<Hop>) {
    && (forall p :: p in groups <==> IsProbe(hops, p))
    && (forall p :: p in groups ==> groups[p] == OfProbe(hops, p))
  }

  lemma {:induction false} NoHopsOfProbe(hops: seq<Hop>, probe: int)
    requires !IsProbe(hops, probe)
    ensures OfProbe(hops, probe) == []
  {
    if hops != [] {
      assert hops[|hops| - 1].probe != probe;
      assert !IsProbe(hops[..|hops| - 1], probe);
      NoHopsOfProbe(hops[..|hops| - 1], probe);
    }
  }

  lemma {:induction false} ProbeOneMore(hops: seq<Hop>, h: Hop)
    ensures forall p :: IsProbe(hops + [h], p) <==> IsProbe(hops, p) || p == h.probe
  {
    forall p ensures IsProbe(hops + [h], p) <==> IsProbe(hops, p) || p == h.probe {
      if IsProbe(hops, p) {
        var k :| 0 <= k < |hops| && hops[k].probe == p;
        assert (hops + [h])[k].probe == p;
      }
      assert (hops + [h])[|hops|] == h;
    }
  }

  lemma GroupOneMore(groups: map<int, seq<Hop>>, hops: seq<Hop>, h: Hop)
    requires AreGroups(groups, hops)
    ensures AreGroups(groups[h.probe := (if h.probe in groups then groups[h.probe] else []) + [h]], hops + [h])
  {
    ProbeOneMore(hops, h);
    hide IsProbe;
    if h.probe !in groups {
      NoHopsOfProbe(hops, h.probe);
    }
    assert (hops + [h])[..|hops|] == hops;
  }

  method GroupByProbe(hops: seq<Hop>) returns (groups: map<int, seq<Hop>>)
    ensures AreGroups(groups, hops)
  {
    groups := map[];
    for i := 0 to |hops|
      invariant AreGroups(groups, hops[..i])
    {
      var h := hops[i];
      GroupOneMore(groups, hops[..i], h);
      assert hops[..i + 1] == hops[..i] + [h];
      groups := groups[h.probe := (if h.probe in groups then groups[h.probe] else []) + [h]];
    }
    assert hops[..|hops|] == hops;
  }

  lemma {:induction false} OfProbeHas(hops: seq<Hop>, probe: int, h: Hop)
    ensures h in OfProbe(hops, probe) <==> h in hops && h.probe == probe
  {
    if hops != [] {
      var n := |hops| - 1;
      assert hops == hops[..n] + [hops[n]];
      OfProbeHas(hops[..n], probe, h);
    }
  }

  lemma SameElements(a: seq<Hop>, b: seq<Hop>)
    requires multiset(a) == multiset(b)
    ensures forall h :: h in a <==> h in b
  {
    forall h ensures h in a <==> h in b {
      assert h in a <==> h in multiset(a);
      assert h in b <==> h in multiset(b);
    }
  }

  lemma ThinnedIsPath(hops: seq<Hop>, probe: int, sorted: seq<Hop>, path: seq<Hop>)
    requires multiset(sorted) == multiset(OfProbe(hops, probe)) && Thins(path, sorted)
    ensures IsPath(hops, probe, path)
  {
    SameElements(sorted, OfProbe(hops, probe));
    forall h ensures h in sorted <==> h in hops && h.probe == probe {
      OfProbeHas(hops, probe, h);
    }
    forall i | 0 <= i < |path| ensures path[i] in sorted {
      assert IsFirst(sorted, path[i]);
    }
    forall h | h in hops && h.probe == probe ensures Covers(path, h.ttl) {
      var i :| 0 <= i < |sorted| && sorted[i] == h;
    }
  }

  // The keys seen so far are those of the paths walked so far.

  ghost function KeysOf(path: seq<Hop>, n: nat): set<string>
    requires n <= |path|
  {
    set i | 0 < i < n :: KeyAt(path, i)
  }

  ghost predicate Untouched(seen: set<string>, probe: int) {
    forall src, dst :: Key(probe, src, dst) !in seen
  }

  lemma {:induction false} UntouchedByPath(probe: int, path: seq<Hop>, n: nat, seen: set<string>, other: int)
    requires n <= |path| && forall i :: 0 <= i < |path| ==> path[i].probe == probe
    requires other != probe && Untouched(seen, other)
    ensures Untouched(seen + KeysOf(path, n), other)
  {
    hide Key;
    forall src, dst ensures Key(other, src, dst) !in KeysOf(path, n) {
      if Key(other, src, dst) in KeysOf(path, n) {
        var i :| 0 < i < n && KeyAt(path, i) == Key(other, src, dst);
        KeySplits(other, src, dst, path[i].probe, path[i - 1].addr, path[i].addr);
      }
    }
  }

  lemma KeysGrow(path: seq<Hop>, i: nat)
    requires 0 < i < |path|
    ensures KeysOf(path, i + 1) == KeysOf(path, i) + {KeyAt(path, i)}
    ensures KeyAt(path, i) in KeysOf(path, i) <==> !IsNew(path, i)
  {
    hide KeyAt;
  }

  lemma WalkStep(probe: int, path: seq<Hop>, i: nat, links: seq<Link>, seen: set<string>)
    requires 0 < i < |path| && path[i].probe == probe && Untouched(seen, probe)
    ensures var key := Key(probe, path[i - 1].addr, path[i].addr);
      var seen', links' := seen + KeysOf(path, i), links + PathLinks(path, i);
      if key in seen' then seen + KeysOf(path, i + 1) == seen' && links + PathLinks(path, i + 1) == links'
      else
        && seen + KeysOf(path, i + 1) == seen' + {key}
        && links + PathLinks(path, i + 1) == links' + [LinkOf(path[i - 1], path[i])]
  {
    hide Key, KeysOf, IsNew;
    KeysGrow(path, i);
  }

  lemma NoLinkYet(path: seq<Hop>, links: seq<Link>, seen: set<string>)
    ensures path == [] ==> links + PathLinks(path, 0) == links && seen + KeysOf(path, 0) == seen
    ensures path != [] ==> links + PathLinks(path, 1) == links && seen + KeysOf(path, 1) == seen
  {
    assert links + [] == links && seen + {} == seen;
  }

  method WalkPath(probe: int, path: seq<Hop>, links: seq<Link>, seen: set<string>)
    returns (links': seq<Link>, seen': set<string>)
    requires Untouched(seen, probe) && forall i :: 0 <= i < |path| ==> path[i].probe == probe
    ensures links' == links + PathLinks(path, |path|)
    ensures seen' == seen + KeysOf(path, |path|)
  {
    hide Untouched, Key, KeysOf, PathLinks, LinkOf;
    links', seen' := links, seen;
    NoLinkYet(path, links, seen);
    if path == [] {
      return;
    }
    for i := 1 to |path|
      invariant links' == links + PathLinks(path, i)
      invariant seen' == seen + KeysOf(path, i)
    {
      WalkStep(probe, path, i, links, seen);
      var key := Key(probe, path[i - 1].addr, path[i].addr);
      if key in seen' {
        continue;
      }
      seen' := seen' + {key};
      links' := links' + [LinkOf(path[i - 1], path[i])];
    }
  }

  /** Half way through the map: the walked probes have their links, the others have no key yet. */
  ghost predicate Walked(
    hops: seq<Hop>, groups: map<int, seq<Hop>>, todo: set<(int, seq<Hop>)>,
    paths: map<int, seq<Hop>>, order: seq<int>, links: seq<Link>, seen: set<string>)
  {
    && todo <= groups.Items
    && ArePaths(hops, paths, order) && links == AllLinks(paths, order)
    && (forall p :: p in groups ==> (p, groups[p]) in todo || p in order)
    && (forall i :: 0 <= i < |order| ==> order[i] in groups && (order[i], groups[order[i]]) !in todo)
    && NoTwice(order)
    && (forall item :: item in todo ==> Untouched(seen, item.0))
  }

  lemma OwnProbes(hops: seq<Hop>, probe: int, path: seq<Hop>)
    requires IsPath(hops, probe, path)
    ensures forall i :: 0 <= i < |path| ==> path[i].probe == probe
  {
  }

  lemma {:induction false} OtherPathsStay(paths: map<int, seq<Hop>>, order: seq<int>, probe: int, path: seq<Hop>)
    requires probe !in order && forall i :: 0 <= i < |order| ==> order[i] in paths
    ensures AllLinks(paths[probe := path], order) == AllLinks(paths, order)
  {
    if order != [] {
      var n := |order| - 1;
      assert order[n] in order && order[n] != probe;
      OtherPathsStay(paths, order[..n], probe, path);
    }
  }

  lemma OnePathMore(hops: seq<Hop>, paths: map<int, seq<Hop>>, order: seq<int>, probe: int, path: seq<Hop>)
    requires ArePaths(hops, paths, order) && probe !in order && IsPath(hops, probe, path)
    ensures ArePaths(hops, paths[probe := path], order + [probe])
    ensures AllLinks(paths[probe := path], order + [probe]) == AllLinks(paths, order) + PathLinks(path, |path|)
  {
    hide IsPath;
    assert (order + [probe])[..|order|] == order;
    OtherPathsStay(paths, order, probe, path);
  }

  lemma WalkedOneMore(
    hops: seq<Hop>, groups: map<int, seq<Hop>>, todo: set<(int, seq<Hop>)>, item: (int, seq<Hop>),
    paths: map<int, seq<Hop>>, order: seq<int>, links: seq<Link>, seen: set<string>, path: seq<Hop>)
    requires Walked(hops, groups, todo, paths, order, links, seen) && item in todo && IsPath(hops, item.0, path)
    ensures Walked(hops, groups, todo - {item}, paths[item.0 := path], order + [item.0],
                   links + PathLinks(path, |path|), seen + KeysOf(path, |path|))
  {
    hide IsPath, Untouched, PathLinks, KeysOf, AllLinks, ArePaths;
    var probe := item.0;
    assert probe in groups && groups[probe] == item.1;
    OnePathMore(hops, paths, order, probe, path);
    OwnProbes(hops, probe, path);
    forall other | other in todo - {item} ensures Untouched(seen + KeysOf(path, |path|), other.0) {
      assert other.0 in groups && groups[other.0] == other.1;
      UntouchedByPath(probe, path, |path|, seen, other.0);
    }
  }

  lemma ItemToWalk(
    hops: seq<Hop>, groups: map<int, seq<Hop>>, todo: set<(int, seq<Hop>)>, item: (int, seq<Hop>),
    paths: map<int, seq<Hop>>, order: seq<int>, links: seq<Link>, seen: set<string>)
    requires Walked(hops, groups, todo, paths, order, links, seen) && item in todo
    ensures item.0 in groups && groups[item.0] == item.1 && Untouched(seen, item.0)
  {
  }

  lemma WalkedAll(
    hops: seq<Hop>, groups: map<int, seq<Hop>>,
    paths: map<int, seq<Hop>>, order: seq<int>, links: seq<Link>, seen: set<string>)
    requires AreGroups(groups, hops) && Walked(hops, groups, {}, paths, order, links, seen)
    ensures IsExtraction(hops, paths, order, links)
  {
    hide ArePaths, AllLinks, Untouched;
  }

  lemma NoneWalked(hops: seq<Hop>, groups: map<int, seq<Hop>>)
    ensures Walked(hops, groups, groups.Items, map[], [], [], {})
  {
  }

  /** The links of a trace, for some path of each probe and some order of the map. */
  method ExtractLinks(hops: seq<Hop>) returns (links: seq<Link>)
    ensures exists paths, order :: IsExtraction(hops, paths, order, links)
  {
    hide Walked, IsPath, Untouched, Thins, Sorted, AreGroups, PathLinks, KeysOf;
    var groups := GroupByProbe(hops);
    links := [];
    ghost var paths: map<int, seq<Hop>>, order: seq<int> := map[], [];
    var seen: set<string> := {};
    var todo := groups.Items;
    NoneWalked(hops, groups);
    while todo != {}
      invariant Walked(hops, groups, todo, paths, order, links, seen)
    {
      var item :| item in todo;
      ItemToWalk(hops, groups, todo, item, paths, order, links, seen);
      var sorted := Sort(TtlAtMost, item.1);
      var path := Dedup(sorted);
      ThinnedIsPath(hops, item.0, sorted, path);
      OwnProbes(hops, item.0, path);
      WalkedOneMore(hops, groups, todo, item, paths, order, links, seen, path);
      links, seen := WalkPath(item.0, path, links, seen);
      paths, order := paths[item.0 := path], order + [item.0];
      todo := todo - {item};
    }
    WalkedAll(hops, groups, paths, order, links, seen);
  }
}
