/**
 * The discovery deck: profiles are shown one at a time; a swipe records a
 * like or a dislike for the profile on top (unless it is a demo profile)
 * and moves to the next one, wrapping round so the deck never runs out.
 */
module SwipeDeck {
  import opened Common
  import opened Strings

  /** A profile card; only `id` matters to swiping. `None` marks a field the card does not have. */
  datatype Profile = Profile(
    id: string,
    role: string,
    fullName: string,
    age: int,
    fitnessGoal: string,
    experienceLevel: string,
    gymName: string,
    specialties: Option<string>,
    pricePerHour: Option<int>,
    avatarUrl: string)

  const DemoPrefix := "demo-"

  /** The six cards shown when the database returns no profiles: four members and two trainers. */
  const FallbackProfiles: seq<Profile> := [
    Profile("demo-1", "user", "Alex Rivera", 26, "Strength", "Advanced", "PureGym London Central",
      None, None, "https://i.pravatar.cc/800?img=12"),
    Profile("demo-2", "user", "Sarah Chen", 24, "Bodyweight", "Intermediate", "Gymbox Farringdon",
      None, None, "https://i.pravatar.cc/800?img=47"),
    Profile("demo-3", "user", "James Wilson", 28, "Endurance", "Beginner", "JD Gyms",
      None, None, "https://i.pravatar.cc/800?img=56"),
    Profile("demo-4", "user", "Maya Patel", 27, "Hypertrophy", "Intermediate", "Virgin Active",
      None, None, "https://i.pravatar.cc/800?img=32"),
    Profile("demo-t1", "trainer", "Marcus Thorne", 32, "Coaching", "Expert", "Third Space Soho",
      Some("Hypertrophy • Fat Loss"), Some(55), "https://i.pravatar.cc/800?img=15"),
    Profile("demo-t2", "trainer", "Elena Kostic", 29, "Coaching", "Expert", "PureGym",
      Some("Mobility • Rehab • Yoga"), Some(45), "https://i.pravatar.cc/800?img=44")
  ]

  /** The profile query: it threw, or it returned rows (`None` for `null`). */
  datatype Query = QueryFailed | Rows(data: Option<seq<Profile>>)

  /** The deck after loading: the rows when there are any, else the demo cards; a failed query leaves it empty. */
  function LoadProfiles(query: Query): (deck: seq<Profile>)
    ensures query.Rows? && query.data.Some? && |query.data.value| > 0 ==> deck == query.data.value
    ensures query.Rows? && (query.data.None? || query.data.value == []) ==> deck == FallbackProfiles
    ensures query.QueryFailed? ==> deck == []
  {
    match query
    case QueryFailed => []
    case Rows(data) => if data.Some? && |data.value| > 0 then data.value else FallbackProfiles
  }

  /**
   * A successful load never shows the empty deck, and a swipe on a loaded
   * deck only ever stores a card the database returned: the demo cards,
   * shown when it returned none, are never stored.
   */
  lemma LoadedDeck(query: Query, index: nat, direction: string)
    ensures query.Rows? ==> |LoadProfiles(query)| > 0
    ensures var write := SwipeWrite(Deck(LoadProfiles(query), index), direction);
      write.Some? ==>
        && query.Rows? && query.data.Some?
        && exists k :: 0 <= k < |query.data.value| && query.data.value[k].id == write.value.target
  {
    var deck := Deck(LoadProfiles(query), index);
    FallbackIsDemo();
    if SwipeWrite(deck, direction).Some? {
      assert query.data.value[index].id == SwipeWrite(deck, direction).value.target;
    }
  }

  datatype SwipeKind = Like | Dislike

  /** `direction === 'right' ? 'like' : 'dislike'`. */
  function SwipeType(direction: string): SwipeKind {
    if direction == "right" then Like else Dislike
  }

  /** A swipe stored for the signed-in user. */
  datatype Write = Write(target: string, kind: SwipeKind)

  /** The deck and the index of the card on top. */
  datatype Deck = Deck(profiles: seq<Profile>, index: nat)

  /** The card on top, if the index points at one. */
  function Active(deck: Deck): Option<Profile> {
    if deck.index < |deck.profiles| then Some(deck.profiles[deck.index]) else None
  }

  /** The swipe `handleSwipe` stores, if any: none for a missing card or a demo card. */
  function SwipeWrite(deck: Deck, direction: string): Option<Write> {
    match Active(deck)
    case None => None
    case Some(p) => if StartsWith(p.id, DemoPrefix) then None else Some(Write(p.id, SwipeType(direction)))
  }

  /** `(prev + 1) % profiles.length`, or `prev` for an empty deck. */
  function Advance(deck: Deck): Deck {
    if |deck.profiles| == 0 then deck else deck.(index := (deck.index + 1) % |deck.profiles|)
  }

  /**
   * One swipe: the write it makes, and the deck after it. With nobody
   * signed in, reading `user.id` throws before a real card's swipe is
   * stored, and `handleSwipe` stops before moving on, so the same card
   * stays. The store's own errors are returned, not thrown, and do not
   * stop the swipe.
   */
  function HandleSwipe(deck: Deck, direction: string, signedOut: bool): (r: (Option<Write>, Deck))
    ensures r.0.Some? ==> r.0 == SwipeWrite(deck, direction) && !signedOut
    ensures !signedOut ==> r.0 == SwipeWrite(deck, direction)
    ensures r.0.Some? ==>
      && Active(deck).Some? && r.0.value.target == Active(deck).value.id
      && !StartsWith(r.0.value.target, DemoPrefix)
    ensures r.1.profiles == deck.profiles
    ensures deck.index < |deck.profiles| ==> r.1.index < |deck.profiles|
    ensures signedOut && SwipeWrite(deck, direction).Some? ==> r == (None, deck)
    ensures !(signedOut && SwipeWrite(deck, direction).Some?) && deck.index < |deck.profiles| ==>
      r.1.index == (deck.index + 1) % |deck.profiles|
  {
    var write := SwipeWrite(deck, direction);
    if write.Some? && signedOut then (None, deck) else (write, Advance(deck))
  }

  /** Only `right` is a like. */
  lemma SwipeKinds(direction: string)
    ensures SwipeType(direction) == Like <==> direction == "right"
    ensures SwipeType(direction) == Dislike <==> direction != "right"
  {
  }

  /** A card whose id starts with `demo-` is never stored, whatever the direction. */
  lemma DemoNeverStored(deck: Deck, direction: string)
    requires Active(deck).Some? && StartsWith(Active(deck).value.id, "demo-")
    ensures SwipeWrite(deck, direction).None?
  {
  }

  /** A real card is stored with its own id and the swipe's kind. */
  lemma RealCardStored(deck: Deck, direction: string)
    requires Active(deck).Some? && !StartsWith(Active(deck).value.id, "demo-")
    ensures SwipeWrite(deck, direction) == Some(Write(deck.profiles[deck.index].id, SwipeType(direction)))
  {
  }

  /** The top card stays in the deck: a swipe keeps the index in range and the cards as they are. */
  lemma IndexStaysInRange(deck: Deck, direction: string, signedOut: bool)
    requires deck.index < |deck.profiles|
    ensures HandleSwipe(deck, direction, signedOut).1.index < |deck.profiles|
    ensures HandleSwipe(deck, direction, signedOut).1.profiles == deck.profiles
  {
  }

  lemma EmptyDeckUnchanged(index: nat, direction: string, signedOut: bool)
    ensures HandleSwipe(Deck([], index), direction, signedOut) == (None, Deck([], index))
  {
  }

  /** The deck after a run of successful swipes. */
  function SwipeAll(deck: Deck, directions: seq<string>): Deck
    decreases |directions|
  {
    if |directions| == 0 then deck else SwipeAll(HandleSwipe(deck, directions[0], false).1, directions[1..])
  }

  /** The swipes stored by a run of successful swipes, in order. */
  function WritesOf(deck: Deck, directions: seq<string>): seq<Write>
    decreases |directions|
  {
    if |directions| == 0 then []
    else
      var (write, next) := HandleSwipe(deck, directions[0], false);
      (if write.Some? then [write.value] else []) + WritesOf(next, directions[1..])
  }

  /** A deck of database cards only: none has a `demo-` id. */
  predicate AllReal(profiles: seq<Profile>) {
    forall k :: 0 <= k < |profiles| ==> !StartsWith(profiles[k].id, DemoPrefix)
  }

  /**
   * On a deck of real cards every swipe of a signed-in user is stored:
   * the `k`-th write is for the card `k` places on, cyclically, with the
   * kind of the `k`-th swipe.
   */
  lemma {:induction false} RealDeckStoresEverySwipe(deck: Deck, directions: seq<string>)
    requires |deck.profiles| > 0 && deck.index < |deck.profiles| && AllReal(deck.profiles)
    ensures |WritesOf(deck, directions)| == |directions|
    ensures forall k :: 0 <= k < |directions| ==>
      WritesOf(deck, directions)[k] == Write(CardAt(deck, k).id, SwipeType(directions[k]))
    decreases |directions|
  {
    if |directions| > 0 {
      var next := Advance(deck);
      WritesOfReal(deck, directions);
      RealDeckStoresEverySwipe(next, directions[1..]);
      var rest := WritesOf(next, directions[1..]);
      forall k | 0 <= k < |directions|
        ensures WritesOf(deck, directions)[k] == Write(CardAt(deck, k).id, SwipeType(directions[k]))
      {
        CardAtZero(deck);
        if k > 0 {
          CardAtNext(deck, k);
          assert directions[1..][k - 1] == directions[k];
          assert WritesOf(deck, directions)[k] == rest[k - 1];
        }
      }
    }
  }

  /** The card `k` places on from the top, cyclically. */
  function CardAt(deck: Deck, k: nat): Profile
    requires |deck.profiles| > 0
  {
    deck.profiles[(deck.index + k) % |deck.profiles|]
  }

  lemma CardAtZero(deck: Deck)
    requires |deck.profiles| > 0 && deck.index < |deck.profiles|
    ensures CardAt(deck, 0) == deck.profiles[deck.index]
  {
    ModUnique(deck.index, 0, deck.index, |deck.profiles|);
  }

  lemma CardAtNext(deck: Deck, k: nat)
    requires |deck.profiles| > 0 && deck.index < |deck.profiles| && k > 0
    ensures CardAt(Advance(deck), k - 1) == CardAt(deck, k)
  {
    ModSucc(deck.index, k - 1, |deck.profiles|);
  }

  /** One signed-in swipe on a real card stores it, then the rest of the run follows. */
  lemma WritesOfReal(deck: Deck, directions: seq<string>)
    requires |deck.profiles| > 0 && deck.index < |deck.profiles| && AllReal(deck.profiles)
    requires |directions| > 0
    ensures Advance(deck).index < |deck.profiles| && Advance(deck).profiles == deck.profiles
    ensures WritesOf(deck, directions)
      == [Write(deck.profiles[deck.index].id, SwipeType(directions[0]))] + WritesOf(Advance(deck), directions[1..])
  {
    assert HandleSwipe(deck, directions[0], false)
      == (Some(Write(deck.profiles[deck.index].id, SwipeType(directions[0]))), Advance(deck));
  }

  /** After `k` successful swipes on a non-empty deck the top card is `k` places further on, cyclically. */
  lemma {:induction false} SwipeOffset(deck: Deck, directions: seq<string>)
    requires |deck.profiles| > 0 && deck.index < |deck.profiles|
    ensures SwipeAll(deck, directions) == Deck(deck.profiles, (deck.index + |directions|) % |deck.profiles|)
    decreases |directions|
  {
    if |directions| > 0 {
      var n := |deck.profiles|;
      var next := Advance(deck);
      assert next == HandleSwipe(deck, directions[0], false).1;
      SwipeOffset(next, directions[1..]);
      ModSucc(deck.index, |directions| - 1, n);
    }
  }

  lemma ModSucc(i: nat, k: nat, n: nat)
    requires i < n
    ensures ((i + 1) % n + k) % n == (i + k + 1) % n
  {
    if i + 1 < n {
      ModUnique(i + 1, 0, i + 1, n);
    } else {
      ModUnique(i + 1, 1, 0, n);
      AddModulus(k, n);
      assert i + k + 1 == k + n;
    }
  }

  /** Adding the deck size does not move the top card. */
  lemma AddModulus(k: nat, n: nat)
    requires n > 0
    ensures (k + n) % n == k % n
  {
    var q := k / n;
    var r := k % n;
    assert k == q * n + r;
    assert k + n == (q + 1) * n + r;
    ModUnique(k + n, q + 1, r, n);
  }

  /** The remainder is the only `r` in `[0, n)` with `a == q * n + r`. */
  lemma ModUnique(a: int, q: int, r: int, n: int)
    requires n > 0 && 0 <= r < n && a == q * n + r
    ensures a % n == r
  {
    var q2 := a / n;
    var r2 := a % n;
    assert (q - q2) * n == r2 - r;
    if q - q2 >= 1 {
      MulAtLeast(q - q2, n);
    } else if q - q2 <= -1 {
      MulAtLeast(q2 - q, n);
    }
  }

  lemma MulAtLeast(x: int, n: int)
    requires x >= 1 && n > 0
    ensures x * n >= n
  {
  }

  /** Swiping through the whole deck brings the first card back on top. */
  lemma FullCycle(deck: Deck, directions: seq<string>)
    requires |deck.profiles| > 0 && deck.index < |deck.profiles|
    requires |directions| == |deck.profiles|
    ensures SwipeAll(deck, directions) == deck
  {
    var n := |deck.profiles|;
    SwipeOffset(deck, directions);
    ModUnique(deck.index + n, 1, deck.index, n);
  }

  /** Every demo card is marked as one. */
  lemma FallbackIsDemo()
    ensures |FallbackProfiles| == 6
    ensures forall k :: 0 <= k < |FallbackProfiles| ==> StartsWith(FallbackProfiles[k].id, "demo-")
  {
  }

  /** On the demo deck nothing is ever stored, however long one swipes. */
  lemma {:induction false} DemoDeckStoresNothing(index: nat, directions: seq<string>)
    requires index < |FallbackProfiles|
    ensures WritesOf(Deck(FallbackProfiles, index), directions) == []
    decreases |directions|
  {
    if |directions| > 0 {
      FallbackIsDemo();
      var deck := Deck(FallbackProfiles, index);
      assert SwipeWrite(deck, directions[0]).None?;
      DemoDeckStoresNothing((index + 1) % |FallbackProfiles|, directions[1..]);
    }
  }

  /** A horizontal drag, in pixels: beyond 100 either way it swipes, otherwise nothing happens. */
  function DragDirection(offset: int): Option<string> {
    if offset > 100 then Some("right") else if offset < -100 then Some("left") else None
  }

  lemma DragThresholds(offset: int)
    ensures DragDirection(offset).Some? <==> offset > 100 || offset < -100
    ensures DragDirection(offset) == Some("right") <==> offset > 100
    ensures DragDirection(offset) == Some("left") <==> offset < -100
  {
  }
}
