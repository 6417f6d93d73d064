/** The category showcase of frontend/src/pages/Dashboard.tsx: a grid of
    exactly the desired number of cards, taken first from the cities of
    the category, then from a fixed list of fallback spots, then from
    numbered placeholders; a card without images gets one from the local
    image pool. The pool cities are shared objects, so the images written
    into them stay written. */
module DashboardShowcase {
  import opened Common
  import opened Collections
  import opened Dashboard

  /** The twelve bundled images, by file name. */
  const LocalImagePool: seq<string> := [
    "nick-seagrave-1tpLdmxki-c-unsplash.jpg",
    "ali-kazal-YsrWdRIt5cs-unsplash.jpg",
    "syd-sujuaan-AjtAJ-FK0Aw-unsplash.jpg",
    "jean-valjean-bUIXMVbHuHw-unsplash.jpg",
    "andre-benz-cXU6tNxhub0-unsplash.jpg",
    "david-kohler-VFRTXGw1VjU-unsplash.jpg",
    "charlotte-noelle-98WPMlTl5xo-unsplash.jpg",
    "chris-holgersson-iQKoSI25Lws-unsplash-2.jpg",
    "kaja-reichardt-kLA5yRv0Gd4-unsplash.jpg",
    "niklas-ohlrogge-niamoh-de-BkmdKnuAZtw-unsplash (1).jpg",
    "takashi-miyazaki-64ajtpEzlYc-unsplash.jpg",
    "WhatsApp Image 2025-08-12 at 10.57.40_d52ccf69.jpg"
  ]

  function PoolImage(i: nat): string
  {
    LocalImagePool[i % |LocalImagePool|]
  }

  datatype Spot = Spot(id: string, name: string, country: string, images: seq<string>)

  /** FALLBACK_BY_CATEGORY; other keys have none. */
  function Fallbacks(key: string): (r: seq<Spot>)
    ensures |r| <= 4
    ensures forall i :: 0 <= i < |r| ==> r[i].images != []
    ensures KnownCategory(key) <==> |r| == 4
  {
    if key == "beach" then [
      Spot("fb-beach-1", "Maldives Atoll", "Maldives", [LocalImagePool[0]]),
      Spot("fb-beach-2", "Bora Bora", "French Polynesia", [LocalImagePool[1]]),
      Spot("fb-beach-3", "Phi Phi Islands", "Thailand", [LocalImagePool[2]]),
      Spot("fb-beach-4", "Bondi Beach", "Australia", [LocalImagePool[3]])]
    else if key == "city" then [
      Spot("fb-city-1", "Tokyo", "Japan", [LocalImagePool[4]]),
      Spot("fb-city-2", "Dubai", "United Arab Emirates", [LocalImagePool[5]]),
      Spot("fb-city-3", "Singapore", "Singapore", [LocalImagePool[6]]),
      Spot("fb-city-4", "Hong Kong", "China", [LocalImagePool[7]])]
    else if key == "nature" then [
      Spot("fb-nature-1", "Banff National Park", "Canada", [LocalImagePool[8]]),
      Spot("fb-nature-2", "Swiss Alps", "Switzerland", [LocalImagePool[9]]),
      Spot("fb-nature-3", "Yosemite Valley", "United States", [LocalImagePool[11]]),
      Spot("fb-nature-4", "Patagonia", "Argentina", [LocalImagePool[6]])]
    else if key == "culture" then [
      Spot("fb-culture-1", "Rome", "Italy", [LocalImagePool[5]]),
      Spot("fb-culture-2", "Athens", "Greece", [LocalImagePool[7]]),
      Spot("fb-culture-3", "Kyoto Temples", "Japan", [LocalImagePool[10]]),
      Spot("fb-culture-4", "Machu Picchu", "Peru", [LocalImagePool[3]])]
    else []
  }

  /** The cities of the category, or all of them for a key without a
      predicate. */
  function Pool(key: string, cities: seq<City>): seq<City>
  {
    if KnownCategory(key) then Filter(cities, (c: City) => InCategory(key, c)) else cities
  }

  /** The pool holds exactly the cities of the category, in their order. */
  lemma PoolSpec(key: string, cities: seq<City>)
    ensures forall c :: c in Pool(key, cities) <==> c in cities && (KnownCategory(key) ==> InCategory(key, c))
    ensures IsSubsequence(Pool(key, cities), cities)
  {
    if KnownCategory(key) {
      forall c ensures c in Pool(key, cities) <==> c in cities && InCategory(key, c) {
        FilterMember<City>(cities, (c: City) => InCategory(key, c), c);
      }
      FilterSubsequence<City>(cities, (c: City) => InCategory(key, c));
    } else {
      SelfSubsequence(cities);
    }
  }

  lemma {:induction false} SelfSubsequence(s: seq<City>)
    ensures IsSubsequence(s, s)
  {
    if s != [] {
      SelfSubsequence(s[1..]);
    }
  }

  /** The number of cards taken from the pool. */
  function FromPool(key: string, cities: seq<City>, desired: int): (n: nat)
    ensures n <= |Pool(key, cities)| && n == Min(|Pool(key, cities)|, Max(0, desired))
  {
    if |Pool(key, cities)| < Max(0, desired) then |Pool(key, cities)| else Max(0, desired)
  }

  function Max(a: int, b: int): int { if a < b then b else a }
  function Min(a: int, b: int): int { if a < b then a else b }

  function PadId(key: string, i: nat): string
  {
    "local-fallback-" + key + "-" + NatToString(i)
  }

  function PadName(i: nat): string
  {
    "Discover Spot " + NatToString(i + 1)
  }

  /** The first position holding the same city as position k. */
  function FirstPos(s: seq<City>, k: nat): (r: nat)
    requires k < |s|
    ensures r <= k
  {
    match FirstIndex(s, (x: City) => x == s[k])
    case Some(i) => i
    case None => assert false; k
  }

  /** That position holds the city and no earlier one does. */
  lemma FirstPosFirst(s: seq<City>, k: nat)
    requires k < |s|
    ensures s[FirstPos(s, k)] == s[k]
    ensures forall j :: 0 <= j < FirstPos(s, k) ==> s[j] != s[k]
  {
  }

  lemma FirstPosSame(s: seq<City>, k: nat, j: nat)
    requires k < |s| && j < |s| && s[k] == s[j]
    ensures FirstPos(s, k) == FirstPos(s, j)
  {
    FirstPosFirst(s, k);
    FirstPosFirst(s, j);
  }

  /** A card shows a spot: same id, name, country and images. */
  predicate Shows(c: City, s: Spot)
    reads c
  {
    c.id == s.id && c.name == s.name && c.country == s.country && c.images == s.images
  }

  /** The placeholder card at position i. */
  function Placeholder(key: string, i: nat): Spot
  {
    Spot(PadId(key, i), PadName(i), "", [PoolImage(i)])
  }

  /** The images a pool card ends with: its own, or else the pool image
      of the first position that shows the same city. */
  function FilledImages(own: seq<string>, first: nat): (r: seq<string>)
    ensures r != []
    ensures own != [] ==> r == own
  {
    if own == [] then [PoolImage(first)] else own
  }

  /** Appends fallback spots while the list is shorter than desired. */
  method PushFallbacks(items: seq<City>, fallback: seq<Spot>, desired: int) returns (r: seq<City>)
    ensures |r| == if |items| < desired then Min(desired, |items| + |fallback|) else |items|
    ensures r[..|items|] == items
    ensures forall k | |items| <= k < |r| :: fresh(r[k]) && Shows(r[k], fallback[k - |items|])
  {
    r := items;
    var i := 0;
    while i < |fallback| && |r| < desired
      invariant 0 <= i <= |fallback|
      invariant |r| == |items| + i
      invariant i > 0 ==> |r| <= desired
      invariant r[..|items|] == items
      invariant forall k | |items| <= k < |r| :: fresh(r[k]) && Shows(r[k], fallback[k - |items|])
    {
      var f := fallback[i];
      var c := new City(f.id, f.name, f.country, None, None, false, f.images);
      r := r + [c];
      i := i + 1;
    }
  }

  /** Gives each card without images the pool image of its position; a
      city shown twice is filled at its first position. */
  method FillImages(items: seq<City>)
    modifies set c | c in items
    ensures forall k {:trigger FirstPos(items, k)} | 0 <= k < |items| ::
      items[k].images == FilledImages(old(items[k].images), FirstPos(items, k))
    ensures forall k | 0 <= k < |items| :: old(items[k].images) != [] ==> items[k].images == old(items[k].images)
  {
    ghost var fp := seq(|items|, k requires 0 <= k < |items| => FirstPos(items, k));
    ghost var before := seq(|items|, k reads items requires 0 <= k < |items| => items[k].images);
    var j := 0;
    while j < |items|
      invariant 0 <= j <= |items|
      invariant forall k {:trigger items[k]} | 0 <= k < |items| ::
        items[k].images == if fp[k] < j then FilledImages(before[k], fp[k]) else before[k]
    {
      FirstPosFirst(items, j);
      assert fp[j] <= j && items[fp[j]] == items[j];
      ghost var imgs := items[j].images;
      assert imgs == FilledImages(before[j], fp[j]) || (fp[j] == j && imgs == before[j]);
      ghost var next := FilledImages(items[j].images, j);
      if items[j].images == [] {
        items[j].images := [PoolImage(j)];
      }
      assert items[j].images == next;
      forall k | 0 <= k < |items|
        ensures items[k].images == if fp[k] < j + 1 then FilledImages(before[k], fp[k]) else before[k]
      {
        if items[k] == items[j] {
          FirstPosSame(items, k, j);
        } else {
          FirstPosFirst(items, k);
          assert fp[k] != j;
        }
      }
      j := j + 1;
    }
    forall k | 0 <= k < |items| ensures items[k].images == FilledImages(old(items[k].images), FirstPos(items, k)) {
      assert fp[k] < j;
    }
  }

  /** Appends numbered placeholders up to the desired count. */
  method PushPlaceholders(items: seq<City>, key: string, desired: int) returns (r: seq<City>)
    ensures |r| == if |items| < desired then desired else |items|
    ensures r[..|items|] == items
    ensures forall k | |items| <= k < |r| :: fresh(r[k]) && Shows(r[k], Placeholder(key, k))
  {
    r := items;
    while |r| < desired
      invariant |items| <= |r|
      invariant |items| < desired ==> |r| <= desired
      invariant |items| >= desired ==> r == items
      invariant r[..|items|] == items
      invariant forall k | |items| <= k < |r| :: fresh(r[k]) && Shows(r[k], Placeholder(key, k))
      decreases desired - |r|
    {
      var i := |r|;
      var c := new City(PadId(key, i), PadName(i), "", None, None, false, [PoolImage(i)]);
      r := r + [c];
    }
  }

  /** The pool's first cities (as many as fit) and then the spots while
      the list is short, with the images filled in. */
  method FilledCards(pool: seq<City>, fallback: seq<Spot>, desired: int) returns (wf: seq<City>)
    requires forall i | 0 <= i < |fallback| :: fallback[i].images != []
    modifies set c | c in pool
    ensures var n := Min(|pool|, Max(0, desired));
      |wf| == (if n < desired then Min(desired, n + |fallback|) else n)
    ensures wf[..Min(|pool|, Max(0, desired))] == pool[..Min(|pool|, Max(0, desired))]
    ensures forall k | Min(|pool|, Max(0, desired)) <= k < |wf| ::
      fresh(wf[k]) && Shows(wf[k], fallback[k - Min(|pool|, Max(0, desired))])
    ensures forall k {:trigger FirstPos(wf, k)} | 0 <= k < Min(|pool|, Max(0, desired)) ::
      wf[k].images == FilledImages(old(pool[k].images), FirstPos(wf, k))
    ensures forall c | c in pool && c !in wf :: c.images == old(c.images)
  {
    var n := Min(|pool|, Max(0, desired));
    var taken := pool[..n];
    wf := PushFallbacks(taken, fallback, desired);
    assert forall k | 0 <= k < n :: wf[k] == pool[k];
    label Filled:
    assert forall k | 0 <= k < n :: wf[k].images == old(pool[k].images);
    FillImages(wf);
    assert forall k | n <= k < |wf| :: old@Filled(wf[k].images) == fallback[k - n].images != [];
  }

  /** The card list built from a pool of cities and a list of spots with
      images: the pool's first cities (as many as fit), then the spots,
      then placeholders, for exactly max(0, desired) cards, each with at
      least one image. A pool city without images is given the pool image
      of its first position, and no other object changes. */
  method Showcase(key: string, pool: seq<City>, fallback: seq<Spot>, desired: int) returns (items: seq<City>)
    requires forall i | 0 <= i < |fallback| :: fallback[i].images != []
    modifies set c | c in pool
    ensures |items| == Max(0, desired)
    ensures items[..Min(|pool|, Max(0, desired))] == pool[..Min(|pool|, Max(0, desired))]
    ensures forall k | Min(|pool|, Max(0, desired)) <= k < |items| :: fresh(items[k])
    ensures forall k | Min(|pool|, Max(0, desired)) <= k < |items| && k < Min(|pool|, Max(0, desired)) + |fallback| ::
      Shows(items[k], fallback[k - Min(|pool|, Max(0, desired))])
    ensures forall k | Min(|pool|, Max(0, desired)) + |fallback| <= k < |items| :: Shows(items[k], Placeholder(key, k))
    ensures forall k | 0 <= k < Min(|pool|, Max(0, desired)) ::
      items[k].images == FilledImages(old(pool[k].images), FirstPos(items, k))
    ensures forall c | c in pool && c !in items :: c.images == old(c.images)
  {
    var n := Min(|pool|, Max(0, desired));
    var wf := FilledCards(pool, fallback, desired);
    items := PushPlaceholders(wf, key, desired);
    forall k | 0 <= k < |wf| ensures items[k] == wf[k] {
      assert items[..|wf|][k] == items[k];
    }
    forall k | 0 <= k < n ensures items[k].images == FilledImages(old(pool[k].images), FirstPos(items, k)) {
      FirstPosPrefix(items, wf, k);
      assert FirstPos(wf, k) == FirstPos(items, k);
    }
  }

  /** CategoryShowcase: the showcase of the category's pool and its
      fallback spots. */
  method CategoryShowcase(key: string, cities: seq<City>, desired: int) returns (items: seq<City>)
    modifies set c | c in cities
    ensures |items| == Max(0, desired)
    ensures items[..FromPool(key, cities, desired)] == Pool(key, cities)[..FromPool(key, cities, desired)]
    ensures forall k | FromPool(key, cities, desired) <= k < |items| && k < FromPool(key, cities, desired) + |Fallbacks(key)| ::
      fresh(items[k]) && Shows(items[k], Fallbacks(key)[k - FromPool(key, cities, desired)])
    ensures forall k | FromPool(key, cities, desired) + |Fallbacks(key)| <= k < |items| ::
      fresh(items[k]) && Shows(items[k], Placeholder(key, k))
    ensures forall k | 0 <= k < FromPool(key, cities, desired) ::
      items[k].images == FilledImages(old(Pool(key, cities)[k].images), FirstPos(items, k))
    ensures forall c | c in cities && c !in items :: c.images == old(c.images)
  {
    var pool := Pool(key, cities);
    PoolSpec(key, cities);
    items := Showcase(key, pool, Fallbacks(key), desired);
    ghost var n := FromPool(key, cities, desired);
    assert n == Min(|pool|, Max(0, desired));
    forall k | n <= k < |items| && k < n + |Fallbacks(key)|
      ensures fresh(items[k]) && Shows(items[k], Fallbacks(key)[k - n])
    {
    }
  }

  lemma FirstPosPrefix(s: seq<City>, t: seq<City>, k: nat)
    requires k < |t| <= |s| && s[..|t|] == t
    ensures FirstPos(s, k) == FirstPos(t, k)
  {
    FirstPosFirst(s, k);
    FirstPosFirst(t, k);
    assert forall j :: 0 <= j <= k ==> s[j] == t[j];
  }
}
