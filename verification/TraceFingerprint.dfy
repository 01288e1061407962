/**
 The fingerprints of a traceroute: its pairs of responding neighbours, sorted and joined, and its
 autonomous systems in path order (services/trace-processor/processor.go).
 */
module TraceFingerprint {
  import opened Options
  import opened Sorting
  import opened TraceLinks

  // ----------------------------------------------------------- the fingerprint

  function PairOf(link: Link): seq<string> {
    if link.src.Some? && link.dst.Some? then [link.src.value + "->" + link.dst.value] else []
  }

  function Pairs(links: seq<Link>): seq<string> {
    if links == [] then [] else Pairs(links[..|links| - 1]) + PairOf(links[|links| - 1])
  }

  lemma {:induction false} PairsSplit(a: seq<Link>, b: seq<Link>)
    ensures Pairs(a + b) == Pairs(a) + Pairs(b)
    decreases |b|
  {
    hide PairOf;
    if b == [] {
      assert a + b == a;
    } else {
      var n := |b| - 1;
      assert (a + b)[..|a + b| - 1] == a + b[..n];
      PairsSplit(a, b[..n]);
    }
  }

  lemma OnePair(link: Link)
    ensures Pairs([link]) == PairOf(link)
  {
    assert [link][..0] == [];
  }

  ghost function PathBag(path: seq<Hop>): multiset<string> {
    multiset(Pairs(PathLinks(path, |path|)))
  }

  /** The pairs of the links of the listed probes, in no order. */
  ghost function Bag(paths: map<int, seq<Hop>>, order: seq<int>): multiset<string>
    requires forall i :: 0 <= i < |order| ==> order[i] in paths
  {
    if order == [] then multiset{}
    else Bag(paths, order[..|order| - 1]) + PathBag(paths[order[|order| - 1]])
  }

  lemma {:induction false} BagOfLinks(paths: map<int, seq<Hop>>, order: seq<int>)
    requires forall i :: 0 <= i < |order| ==> order[i] in paths
    ensures multiset(Pairs(AllLinks(paths, order))) == Bag(paths, order)
  {
    hide PathLinks;
    if order != [] {
      var n := |order| - 1;
      BagOfLinks(paths, order[..n]);
      PairsSplit(AllLinks(paths, order[..n]), PathLinks(paths[order[n]], |paths[order[n]]|));
    }
  }

  lemma {:induction false} BagWithout(paths: map<int, seq<Hop>>, order: seq<int>, i: nat)
    requires i < |order| && forall j :: 0 <= j < |order| ==> order[j] in paths
    ensures Bag(paths, order) == Bag(paths, order[..i] + order[i + 1..]) + PathBag(paths[order[i]])
    decreases |order|
  {
    hide PathBag;
    var n := |order| - 1;
    var rest := order[..i] + order[i + 1..];
    if i == n {
      assert rest == order[..n];
    } else {
      BagWithout(paths, order[..n], i);
      assert rest[..|rest| - 1] == order[..n][..i] + order[..n][i + 1..];
      assert rest[|rest| - 1] == order[n];
    }
  }

  ghost predicate SameProbes(order: seq<int>, order': seq<int>) {
    && (forall i :: 0 <= i < |order| ==> order[i] in order')
    && (forall i :: 0 <= i < |order'| ==> order'[i] in order)
  }

  ghost predicate SameBags(paths: map<int, seq<Hop>>, order: seq<int>, paths': map<int, seq<Hop>>) {
    forall i :: 0 <= i < |order| ==>
      order[i] in paths && order[i] in paths' && PathBag(paths[order[i]]) == PathBag(paths'[order[i]])
  }

  lemma WithoutAt(order: seq<int>, i: nat)
    requires i < |order|
    ensures var rest := order[..i] + order[i + 1..];
      && |rest| == |order| - 1
      && forall k :: 0 <= k < |rest| ==> rest[k] == order[if k < i then k else k + 1]
  {
  }

  lemma StillIn(order: seq<int>, i: nat, p: int)
    requires i < |order| && p in order && p != order[i]
    ensures p in order[..i] + order[i + 1..]
  {
    var k :| 0 <= k < |order| && order[k] == p;
    assert (order[..i] + order[i + 1..])[if k < i then k else k - 1] == p;
  }

  /** Taking the last probe of one list out of the other leaves the same probes. */
  lemma WithoutSame(order: seq<int>, order': seq<int>, i: nat)
    requires NoTwice(order) && NoTwice(order') && SameProbes(order, order')
    requires order != [] && i < |order'| && order'[i] == order[|order| - 1]
    ensures var rest' := order'[..i] + order'[i + 1..];
      NoTwice(order[..|order| - 1]) && NoTwice(rest') && SameProbes(order[..|order| - 1], rest')
  {
    var n := |order| - 1;
    var rest' := order'[..i] + order'[i + 1..];
    WithoutAt(order', i);
    forall k | 0 <= k < n ensures order[..n][k] in rest' {
      StillIn(order', i, order[k]);
    }
    forall k | 0 <= k < |rest'| ensures rest'[k] in order[..n] {
      var p := rest'[k];
      assert p == order'[if k < i then k else k + 1];
      StillIn(order, n, p);
      assert order[..n] + order[n + 1..] == order[..n];
    }
  }

  /** The order in which the map is walked does not matter. */
  lemma {:induction false} BagInAnyOrder(
    paths: map<int, seq<Hop>>, order: seq<int>, paths': map<int, seq<Hop>>, order': seq<int>)
    requires NoTwice(order) && NoTwice(order') && SameProbes(order, order')
    requires SameBags(paths, order, paths') && SameBags(paths, order', paths')
    ensures Bag(paths, order) == Bag(paths', order')
    decreases |order|
  {
    hide PathBag;
    if order != [] {
      var n := |order| - 1;
      assert order[n] in order';
      var i :| 0 <= i < |order'| && order'[i] == order[n];
      var rest' := order'[..i] + order'[i + 1..];
      WithoutSame(order, order', i);
      WithoutAt(order', i);
      BagInAnyOrder(paths, order[..n], paths', rest');
      BagWithout(paths', order', i);
    }
  }

  // ---------------------------------------------------------- sorting the pairs

  predicate Before(a: string, b: string)
    decreases |a|
  {
    a == "" || (b != "" && (a[0] < b[0] || (a[0] == b[0] && Before(a[1..], b[1..]))))
  }

  lemma {:induction false} BeforeIsTotal(a: string, b: string)
    ensures Before(a, b) || Before(b, a)
    ensures Before(a, b) && Before(b, a) ==> a == b
    decreases |a|
  {
    if a != "" && b != "" {
      BeforeIsTotal(a[1..], b[1..]);
      assert a == [a[0]] + a[1..] && b == [b[0]] + b[1..];
    }
  }

  lemma {:induction false} BeforeIsTransitive(a: string, b: string, c: string)
    requires Before(a, b) && Before(b, c)
    ensures Before(a, c)
    decreases |a|
  {
    if a != "" && b != "" && c != "" && a[0] == b[0] && b[0] == c[0] {
      BeforeIsTransitive(a[1..], b[1..], c[1..]);
    }
  }

  lemma BeforeOrders()
    ensures Orders(Before) && HasNoTies(Before)
  {
    hide Before;
    forall a, b ensures (Before(a, b) || Before(b, a)) && (Before(a, b) && Before(b, a) ==> a == b) {
      BeforeIsTotal(a, b);
    }
    forall a, b, c | Before(a, b) && Before(b, c) ensures Before(a, c) {
      BeforeIsTransitive(a, b, c);
    }
  }

  /** The texts differ first at i, where a has the lesser character. */
  predicate LessAt(a: string, b: string, i: nat) {
    i < |a| && i < |b| && a[..i] == b[..i] && a[i] < b[i]
  }

  lemma LessFurtherOn(a: string, b: string, i: nat)
    requires a != "" && b != "" && a[0] == b[0]
    ensures LessAt(a, b, i + 1) <==> LessAt(a[1..], b[1..], i)
  {
    if i < |a| - 1 && i < |b| - 1 {
      assert a[..i + 1] == [a[0]] + a[1..][..i] && b[..i + 1] == [b[0]] + b[1..][..i];
      assert a[1..][..i] == a[..i + 1][1..] && b[1..][..i] == b[..i + 1][1..];
    }
  }

  lemma SameStart(a: string, b: string)
    requires a != "" && b != "" && a[0] == b[0]
    ensures a <= b <==> a[1..] <= b[1..]
    ensures !LessAt(a, b, 0)
  {
  }

  lemma OtherStart(a: string, b: string, i: nat)
    requires a != "" && b != "" && a[0] != b[0]
    ensures !(a <= b) && (LessAt(a, b, i) <==> i == 0 && a[0] < b[0])
  {
    if 0 < i <= |a| && i <= |b| {
      assert a[..i][0] == a[0] && b[..i][0] == b[0];
    }
  }

  /** The order is that of the first character in which the texts differ; a prefix comes first. */
  lemma {:induction false} BeforeIsLexicographic(a: string, b: string)
    ensures Before(a, b) <==> a <= b || exists i: nat :: LessAt(a, b, i)
    decreases |a|
  {
    if a != "" && b != "" {
      hide LessAt;
      if a[0] == b[0] {
        SameStart(a, b);
        BeforeIsLexicographic(a[1..], b[1..]);
        if i: nat :| LessAt(a, b, i) {
          LessFurtherOn(a, b, i - 1);
        }
        if i: nat :| LessAt(a[1..], b[1..], i) {
          LessFurtherOn(a, b, i);
        }
      } else {
        forall i: nat ensures LessAt(a, b, i) <==> i == 0 && a[0] < b[0] {
          OtherStart(a, b, i);
        }
        OtherStart(a, b, 0);
      }
    }
  }

  function Join(s: seq<string>): string {
    if s == [] then ""
    else if |s| == 1 then s[0]
    else Join(s[..|s| - 1]) + "," + s[|s| - 1]
  }

  /** The text whose hash is stored. */
  ghost predicate IsFingerprint(links: seq<Link>, text: string) {
    exists s :: Sorted(Before, s) && multiset(s) == multiset(Pairs(links)) && text == Join(s)
  }

  lemma PathsListed(hops: seq<Hop>, paths: map<int, seq<Hop>>, order: seq<int>)
    requires ArePaths(hops, paths, order)
    ensures forall i :: 0 <= i < |order| ==> order[i] in paths
  {
  }

  lemma BaredKey(path: seq<Hop>, j: nat)
    requires 0 < j < |path|
    ensures KeyAt(Bared(path), j) == KeyAt(path, j)
  {
  }

  lemma BaredKeys(path: seq<Hop>, i: nat)
    requires 0 < i < |path|
    ensures IsNew(Bared(path), i) <==> IsNew(path, i)
  {
    forall j | 0 < j <= i ensures KeyAt(Bared(path), j) == KeyAt(path, j) {
      BaredKey(path, j);
    }
    hide Bared, KeyAt;
  }

  lemma BaredLinkAt(path: seq<Hop>, i: nat)
    requires i < |path|
    ensures Pairs(LinksAt(Bared(path), i)) == Pairs(LinksAt(path, i))
  {
    hide IsNew;
    if i > 0 {
      BaredKeys(path, i);
      OnePair(LinkOf(path[i - 1], path[i]));
      OnePair(LinkOf(Bared(path)[i - 1], Bared(path)[i]));
    }
  }

  lemma {:induction false} BaredPairs(path: seq<Hop>, n: nat)
    requires n <= |path|
    ensures Pairs(PathLinks(Bared(path), n)) == Pairs(PathLinks(path, n))
  {
    hide Pairs, LinksAt;
    if n > 0 {
      BaredPairs(path, n - 1);
      BaredLinkAt(path, n - 1);
      PairsSplit(PathLinks(path, n - 1), LinksAt(path, n - 1));
      PairsSplit(PathLinks(Bared(path), n - 1), LinksAt(Bared(path), n - 1));
    }
  }

  /** Round-trip times are not in the fingerprint. */
  lemma BaredHasSameBag(path: seq<Hop>)
    ensures PathBag(Bared(path)) == PathBag(path)
  {
    BaredPairs(path, |path|);
  }

  lemma BagsAreSame(
    hops: seq<Hop>, paths: map<int, seq<Hop>>, order: seq<int>,
    hops': seq<Hop>, paths': map<int, seq<Hop>>, order': seq<int>)
    requires SameHops(hops, hops') && TtlsAgree(hops) && SameProbes(order, order')
    requires ArePaths(hops, paths, order) && ArePaths(hops', paths', order')
    ensures SameBags(paths, order, paths') && SameBags(paths, order', paths')
  {
    hide SameHops, TtlsAgree, IsPath, PathBag, Bared;
    forall i | 0 <= i < |order|
      ensures order[i] in paths && order[i] in paths' && PathBag(paths[order[i]]) == PathBag(paths'[order[i]])
    {
      assert order[i] in order';
      var j :| 0 <= j < |order'| && order'[j] == order[i];
      BaredPathIsUnique(hops, hops', order[i], paths[order[i]], paths'[order'[j]]);
      BaredHasSameBag(paths[order[i]]);
      BaredHasSameBag(paths'[order[i]]);
    }
    forall j | 0 <= j < |order'|
      ensures order'[j] in paths && order'[j] in paths' && PathBag(paths[order'[j]]) == PathBag(paths'[order'[j]])
    {
      assert order'[j] in order;
      var i :| 0 <= i < |order| && order[i] == order'[j];
    }
  }

  lemma ListsAgree(hops: seq<Hop>, order: seq<int>, hops': seq<Hop>, order': seq<int>)
    requires SameHops(hops, hops') && Lists(order, hops) && Lists(order', hops')
    ensures NoTwice(order) && NoTwice(order') && SameProbes(order, order')
  {
    forall i | 0 <= i < |order| ensures order[i] in order' {
      assert IsProbe(hops, order[i]);
      var k :| 0 <= k < |hops| && hops[k].probe == order[i];
      assert hops[k] in hops && hops[k] in hops';
    }
    forall i | 0 <= i < |order'| ensures order'[i] in order {
      assert IsProbe(hops', order'[i]);
      var k :| 0 <= k < |hops'| && hops'[k].probe == order'[i];
      assert hops'[k] in hops' && hops'[k] in hops;
    }
  }

  /** If hops of a probe with the same TTL agree in their address, the fingerprint depends only on which hops
      there are: not on the order they are listed in, nor on how the sort breaks ties, nor on the order of the
      map. */
  lemma FingerprintIsOrderIndependent(
    hops: seq<Hop>, paths: map<int, seq<Hop>>, order: seq<int>, links: seq<Link>, text: string,
    hops': seq<Hop>, paths': map<int, seq<Hop>>, order': seq<int>, links': seq<Link>, text': string)
    requires SameHops(hops, hops') && TtlsAgree(hops)
    requires IsExtraction(hops, paths, order, links) && IsFingerprint(links, text)
    requires IsExtraction(hops', paths', order', links') && IsFingerprint(links', text')
    ensures text == text'
  {
    hide SameHops, TtlsAgree, ArePaths, Lists, Sorted, Bag, AllLinks, Pairs, SameBags, SameProbes, NoTwice;
    PathsListed(hops, paths, order);
    PathsListed(hops', paths', order');
    BagOfLinks(paths, order);
    BagOfLinks(paths', order');
    ListsAgree(hops, order, hops', order');
    BagsAreSame(hops, paths, order, hops', paths', order');
    BagInAnyOrder(paths, order, paths', order');
    var s :| Sorted(Before, s) && multiset(s) == multiset(Pairs(links)) && text == Join(s);
    var s' :| Sorted(Before, s') && multiset(s') == multiset(Pairs(links')) && text' == Join(s');
    BeforeOrders();
    SortedIsUnique(Before, s, s');
  }

  // --------------------------------------------------- the text determines the pairs

  /** No address contains a comma. */
  ghost predicate NoCommas(links: seq<Link>) {
    forall i :: 0 <= i < |links| ==>
      && (links[i].src.Some? ==> ',' !in links[i].src.value)
      && (links[i].dst.Some? ==> ',' !in links[i].dst.value)
  }

  /** Texts that can be told apart once joined. */
  ghost predicate Separable(s: seq<string>) {
    forall i :: 0 <= i < |s| ==> s[i] != "" && ',' !in s[i]
  }

  lemma LastComma(x: string, a: string, y: string, b: string)
    requires x + "," + a == y + "," + b && ',' !in a && ',' !in b
    ensures x == y && a == b
  {
    var s, t := x + "," + a, y + "," + b;
    assert s[|x|] == ',' && forall i :: |x| < i < |s| ==> s[i] == a[i - |x| - 1];
    assert t[|y|] == ',' && forall i :: |y| < i < |t| ==> t[i] == b[i - |y| - 1];
    assert |x| == |y|;
    assert x == s[..|x|] == t[..|y|] == y;
    assert a == s[|x| + 1..] == t[|y| + 1..] == b;
  }

  lemma JoinedShape(s: seq<string>)
    requires Separable(s)
    ensures s == [] <==> Join(s) == ""
    ensures |s| <= 1 <==> ',' !in Join(s)
  {
    if |s| > 1 {
      assert Join(s)[|Join(s[..|s| - 1])|] == ',';
    }
  }

  lemma {:induction false} JoinIsInjective(s: seq<string>, t: seq<string>)
    requires Separable(s) && Separable(t) && Join(s) == Join(t)
    ensures s == t
    decreases |s|
  {
    JoinedShape(s);
    JoinedShape(t);
    if |s| > 1 {
      var n, m := |s| - 1, |t| - 1;
      LastComma(Join(s[..n]), s[n], Join(t[..m]), t[m]);
      JoinIsInjective(s[..n], t[..m]);
      assert s == s[..n] + [s[n]] && t == t[..m] + [t[m]];
    }
  }

  lemma {:induction false} PairsAreSeparable(links: seq<Link>)
    requires NoCommas(links)
    ensures Separable(Pairs(links))
  {
    if links != [] {
      PairsAreSeparable(links[..|links| - 1]);
    }
  }

  lemma SeparableInAnyOrder(s: seq<string>, t: seq<string>)
    requires Separable(s) && multiset(s) == multiset(t)
    ensures Separable(t)
  {
    forall i | 0 <= i < |t| ensures t[i] != "" && ',' !in t[i] {
      assert t[i] in multiset(s);
      assert t[i] in s;
    }
  }

  /** Two lists of links have the same text exactly if they have the same pairs, each as often. */
  lemma SameTextIff(links: seq<Link>, text: string, links': seq<Link>, text': string)
    requires NoCommas(links) && NoCommas(links') && IsFingerprint(links, text) && IsFingerprint(links', text')
    ensures text == text' <==> multiset(Pairs(links)) == multiset(Pairs(links'))
  {
    hide Pairs, Separable, Sorted, Join, NoCommas;
    var s :| Sorted(Before, s) && multiset(s) == multiset(Pairs(links)) && text == Join(s);
    var s' :| Sorted(Before, s') && multiset(s') == multiset(Pairs(links')) && text' == Join(s');
    PairsAreSeparable(links);
    PairsAreSeparable(links');
    SeparableInAnyOrder(Pairs(links), s);
    SeparableInAnyOrder(Pairs(links'), s');
    if text == text' {
      JoinIsInjective(s, s');
    }
    if multiset(s) == multiset(s') {
      BeforeOrders();
      SortedIsUnique(Before, s, s');
    }
  }

  /** How many links lead from one address to the other. */
  function Times(links: seq<Link>, src: string, dst: string): nat {
    if links == [] then 0
    else
      var n := |links| - 1;
      Times(links[..n], src, dst) + if links[n].src == Some(src) && links[n].dst == Some(dst) then 1 else 0
  }

  /** No source contains an arrow. */
  ghost predicate NoArrows(links: seq<Link>) {
    forall i :: 0 <= i < |links| && links[i].src.Some? ==> !HasArrow(links[i].src.value)
  }

  lemma {:induction false} PairCount(links: seq<Link>, src: string, dst: string)
    requires NoArrows(links)
    ensures HasArrow(src) ==> Times(links, src, dst) == 0
    ensures !HasArrow(src) ==> multiset(Pairs(links))[src + "->" + dst] == Times(links, src, dst)
  {
    hide HasArrow;
    if links != [] {
      var n := |links| - 1;
      PairCount(links[..n], src, dst);
      var link := links[n];
      if link.src.Some? && link.dst.Some? && !HasArrow(src)
         && link.src.value + "->" + link.dst.value == src + "->" + dst {
        ArrowSplits(link.src.value, link.dst.value, src, dst);
      }
    }
  }

  lemma {:induction false} PairsComeFromLinks(links: seq<Link>, pair: string)
    requires pair in Pairs(links)
    ensures exists i :: 0 <= i < |links| && PairOf(links[i]) == [pair]
  {
    var n := |links| - 1;
    if pair in Pairs(links[..n]) {
      PairsComeFromLinks(links[..n], pair);
      var i :| 0 <= i < n && PairOf(links[..n][i]) == [pair];
      assert PairOf(links[i]) == [pair];
    } else {
      assert PairOf(links[n]) == [pair];
    }
  }

  /** They lead from each address to each other equally often. */
  ghost predicate LeadAlike(links: seq<Link>, links': seq<Link>) {
    forall a, b :: Times(links, a, b) == Times(links', a, b)
  }

  lemma SameCount(links: seq<Link>, links': seq<Link>, pair: string)
    requires NoArrows(links) && NoArrows(links') && pair in Pairs(links)
    requires LeadAlike(links, links')
    ensures multiset(Pairs(links))[pair] == multiset(Pairs(links'))[pair]
  {
    hide Pairs, HasArrow;
    PairsComeFromLinks(links, pair);
    var i :| 0 <= i < |links| && PairOf(links[i]) == [pair];
    var a, b := links[i].src.value, links[i].dst.value;
    assert pair == a + "->" + b;
    PairCount(links, a, b);
    PairCount(links', a, b);
    assert Times(links, a, b) == Times(links', a, b);
  }

  lemma SameBagLeadsAlike(links: seq<Link>, links': seq<Link>)
    requires NoArrows(links) && NoArrows(links') && multiset(Pairs(links)) == multiset(Pairs(links'))
    ensures LeadAlike(links, links')
  {
    hide Pairs, HasArrow;
    forall a, b ensures Times(links, a, b) == Times(links', a, b) {
      PairCount(links, a, b);
      PairCount(links', a, b);
    }
  }

  lemma AlikeBothWays(links: seq<Link>, links': seq<Link>)
    requires LeadAlike(links, links')
    ensures LeadAlike(links', links)
  {
  }

  /** If addresses contain neither commas nor arrows, two lists of links have the same text exactly if they lead
      from each address to each other equally often: the text is all there is to the responding pairs. */
  lemma TextDeterminesPairs(links: seq<Link>, text: string, links': seq<Link>, text': string)
    requires NoCommas(links) && NoCommas(links') && NoArrows(links) && NoArrows(links')
    requires IsFingerprint(links, text) && IsFingerprint(links', text')
    ensures text == text' <==> LeadAlike(links, links')
  {
    hide Pairs, LeadAlike, IsFingerprint, NoCommas, NoArrows;
    SameTextIff(links, text, links', text');
    var bag, bag' := multiset(Pairs(links)), multiset(Pairs(links'));
    if bag == bag' {
      SameBagLeadsAlike(links, links');
    }
    if LeadAlike(links, links') {
      AlikeBothWays(links, links');
      forall pair ensures bag[pair] == bag'[pair] {
        if pair in Pairs(links) {
          SameCount(links, links', pair);
        } else if pair in Pairs(links') {
          SameCount(links', links, pair);
        }
      }
      assert bag == bag';
    }
  }

  const BEHIND := Link(0, Some("b"), Some("c"), 1, None)
  const AHEAD := Link(0, Some("a"), Some("b"), 1, None)

  lemma TwoPairs()
    ensures Pairs([BEHIND, AHEAD]) == ["b->c", "a->b"]
  {
    OnePair(BEHIND);
    assert [BEHIND, AHEAD][..1] == [BEHIND];
    assert "b" + "->" + "c" == "b->c" && "a" + "->" + "b" == "a->b";
  }

  lemma TwoInOrder()
    ensures Sorted(Before, ["a->b", "b->c"]) && Join(["a->b", "b->c"]) == "a->b,b->c"
  {
    var s := ["a->b", "b->c"];
    assert s[..1] == ["a->b"];
    assert Before(s[0], s[1]) by {
      assert s[0][0] == 'a' && s[1][0] == 'b';
    }
  }

  /** In particular, of the links of three hops a, b and c in any order. */
  lemma ThreeHopText(text: string)
    requires IsFingerprint([BEHIND, AHEAD], text)
    ensures text == "a->b,b->c"
  {
    hide Sorted, Join, Pairs, Before;
    TwoPairs();
    TwoInOrder();
    BeforeOrders();
    var s :| Sorted(Before, s) && multiset(s) == multiset(Pairs([BEHIND, AHEAD])) && text == Join(s);
    assert multiset(["a->b", "b->c"]) == multiset(["b->c", "a->b"]);
    SortedIsUnique(Before, s, ["a->b", "b->c"]);
  }

  // ------------------------------------------------------------- when TTLs clash

  const FIRST := Hop(0, 1, false, "a", 1.0)
  const SECOND := Hop(0, 2, false, "b", 2.0)
  const RIVAL := Hop(0, 2, false, "c", 2.0)

  lemma TwoHopPath(src: Hop, dst: Hop)
    ensures PathLinks([src, dst], 2) == [LinkOf(src, dst)]
  {
    hide KeyAt, LinkOf;
    var path := [src, dst];
    assert IsNew(path, 1);
    assert PathLinks(path, 1) == [] + LinksAt(path, 0) == [];
    assert PathLinks(path, 2) == [] + LinksAt(path, 1);
  }

  lemma TwoHopLinks(src: Hop, dst: Hop)
    requires !src.timeout && !dst.timeout && src.probe == dst.probe
    ensures Pairs(AllLinks(map[src.probe := [src, dst]], [src.probe])) == [src.addr + "->" + dst.addr]
  {
    hide PathLinks, Pairs;
    TwoHopPath(src, dst);
    OnePair(LinkOf(src, dst));
    var paths := map[src.probe := [src, dst]];
    assert [src.probe][..0] == [];
    assert AllLinks(paths, []) == [];
    assert AllLinks(paths, [src.probe]) == [] + PathLinks([src, dst], 2) == [LinkOf(src, dst)];
  }

  lemma ThroughEither(second: Hop)
    requires second == SECOND || second == RIVAL
    ensures IsPath([FIRST, SECOND, RIVAL], 0, [FIRST, second])
  {
    var hops, path := [FIRST, SECOND, RIVAL], [FIRST, second];
    assert path[0].ttl == 1 && path[1].ttl == 2;
    assert FIRST in hops && SECOND in hops && RIVAL in hops;
  }

  lemma Winner(second: Hop)
    requires second == SECOND || second == RIVAL
    ensures var paths := map[0 := [FIRST, second]];
      && IsExtraction([FIRST, SECOND, RIVAL], paths, [0], AllLinks(paths, [0]))
      && IsFingerprint(AllLinks(paths, [0]), "a" + "->" + second.addr)
  {
    hide IsPath, AllLinks, Pairs;
    var hops := [FIRST, SECOND, RIVAL];
    assert hops[0].probe == 0;
    ThroughEither(second);
    TwoHopLinks(FIRST, second);
    var pair := FIRST.addr + "->" + second.addr;
    assert Sorted(Before, [pair]) && Join([pair]) == pair;
  }

  /** Two hops with the same TTL and different addresses: the sort may put either first, and the
      fingerprints differ. */
  lemma ClashingTtlsAreAmbiguous()
    ensures var hops := [FIRST, SECOND, RIVAL];
      var paths, paths' := map[0 := [FIRST, SECOND]], map[0 := [FIRST, RIVAL]];
      && IsExtraction(hops, paths, [0], AllLinks(paths, [0])) && IsFingerprint(AllLinks(paths, [0]), "a->b")
      && IsExtraction(hops, paths', [0], AllLinks(paths', [0])) && IsFingerprint(AllLinks(paths', [0]), "a->c")
  {
    assert "a" + "->" + "b" == "a->b" && "a" + "->" + "c" == "a->c";
    Winner(SECOND);
    Winner(RIVAL);
  }

  // ---------------------------------------------------------------- computing it

  method LinkFingerprint(links: seq<Link>) returns (text: string)
    ensures IsFingerprint(links, text)
  {
    var pairs: seq<string> := [];
    for i := 0 to |links|
      invariant pairs == Pairs(links[..i])
    {
      assert links[..i + 1][..i] == links[..i];
      var l := links[i];
      if l.src.Some? && l.dst.Some? {
        pairs := pairs + [l.src.value + "->" + l.dst.value];
      }
    }
    assert links[..|links|] == links;
    BeforeOrders();
    pairs := Sort(Before, pairs);
    text := Join(pairs);
  }

  // ------------------------------------------------------------ systems on a path

  function Extended(path: seq<int>, asn: Option<int>): seq<int> {
    if asn.None? || asn.value == 0 || (path != [] && asn.value == path[|path| - 1]) then path
    else path + [asn.value]
  }

  /** None: the address has no known system. Zero is no system either. */
  function Compressed(asns: seq<Option<int>>): seq<int> {
    if asns == [] then []
    else Extended(Compressed(asns[..|asns| - 1]), asns[|asns| - 1])
  }

  method CompressAsns(asns: seq<Option<int>>) returns (path: seq<int>)
    ensures path == Compressed(asns)
  {
    path := [];
    for i := 0 to |asns|
      invariant path == Compressed(asns[..i])
    {
      assert asns[..i + 1][..i] == asns[..i];
      if asns[i].None? {
        continue;
      }
      if path == [] || asns[i].value != path[|path| - 1] {
        if asns[i].value != 0 {
          path := path + [asns[i].value];
        }
      }
    }
    assert asns[..|asns|] == asns;
  }

  function ExtendedAll(path: seq<int>, asns: seq<Option<int>>): seq<int> {
    if asns == [] then path else Extended(ExtendedAll(path, asns[..|asns| - 1]), asns[|asns| - 1])
  }

  lemma {:induction false} CompressedSplits(a: seq<Option<int>>, b: seq<Option<int>>)
    ensures Compressed(a + b) == ExtendedAll(Compressed(a), b)
    decreases |b|
  {
    hide Extended;
    if b == [] {
      assert a + b == a;
    } else {
      assert (a + b)[..|a + b| - 1] == a + b[..|b| - 1];
      CompressedSplits(a, b[..|b| - 1]);
    }
  }

  /** Silent and unknown hops, hops outside any system, and more hops in the same system leave the path
      of systems as it is, wherever they come. */
  lemma MoreHopsSameSystems(a: seq<Option<int>>, asn: Option<int>, b: seq<Option<int>>)
    requires asn.None? || asn == Some(0) || (a != [] && a[|a| - 1] == asn)
    ensures Compressed(a + [asn] + b) == Compressed(a + b)
  {
    CompressedSplits(a + [asn], b);
    CompressedSplits(a, b);
    assert (a + [asn])[..|a|] == a;
  }

  /** No zero, and no system twice in a row. */
  predicate IsSystemPath(path: seq<int>) {
    && (forall i :: 0 <= i < |path| ==> path[i] != 0)
    && (forall i :: 0 <= i < |path| - 1 ==> path[i] != path[i + 1])
  }

  function Known(path: seq<int>): seq<Option<int>> {
    seq(|path|, i requires 0 <= i < |path| => Some(path[i]))
  }

  /** A path of systems is its own compression; with MoreHopsSameSystems this fixes what any list becomes. */
  lemma {:induction false} SystemPathIsKept(path: seq<int>)
    requires IsSystemPath(path)
    ensures Compressed(Known(path)) == path
    decreases |path|
  {
    if path != [] {
      var n := |path| - 1;
      assert Known(path)[..n] == Known(path[..n]);
      SystemPathIsKept(path[..n]);
      assert path == path[..n] + [path[n]];
      assert n > 0 ==> path[n - 1] != path[n];
    }
  }

  lemma ExtendedIsSystemPath(path: seq<int>, asn: Option<int>)
    requires IsSystemPath(path)
    ensures IsSystemPath(Extended(path, asn))
  {
  }

  lemma EmptyIsSystemPath()
    ensures IsSystemPath([])
  {
  }

  lemma {:induction false} CompressedIsSystemPath(asns: seq<Option<int>>)
    ensures IsSystemPath(Compressed(asns))
  {
    hide IsSystemPath, Extended;
    if asns == [] {
      EmptyIsSystemPath();
    } else {
      CompressedIsSystemPath(asns[..|asns| - 1]);
      ExtendedIsSystemPath(Compressed(asns[..|asns| - 1]), asns[|asns| - 1]);
    }
  }
}
