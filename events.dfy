/**
 * Event records as the event-selection screen receives them from the posts
 * endpoint, the date filter that turns posts into events, and the dispatch
 * of the "enter" button.
 */
module Events {
  import opened Wrappers

  /** A point in time; the model only needs to know whether a date is present. */
  type Timestamp = int

  /** A reference to a remote image (cover or logo) of an event. */
  datatype AssetRef = AssetRef(originalUrl: string)

  /** One fetched post. Start and end dates, level and collection are nullable. */
  datatype EventMeta = EventMeta(
    uid: string,
    startDate: Option<Timestamp>,
    endDate: Option<Timestamp>,
    cover: AssetRef,
    logo: AssetRef,
    locked: bool,
    levelId: Option<string>,
    collectionId: Option<string>)

  /** A post is an event when it has both a start and an end date. */
  predicate HasDates(e: EventMeta)
  {
    e.startDate.Some? && e.endDate.Some?
  }

  /** The post at position `j` has both dates. */
  predicate DatedAt(posts: seq<EventMeta>, j: int)
  {
    0 <= j < |posts| && HasDates(posts[j])
  }

  /** The posts that have both dates, in their original order (the `FindAll` filter). */
  function FilterEvents(posts: seq<EventMeta>): (r: seq<EventMeta>)
    ensures |r| <= |posts|
    ensures forall e :: e in r ==> e in posts && HasDates(e)
    ensures forall j {:trigger DatedAt(posts, j)} :: DatedAt(posts, j) ==> posts[j] in r
  {
    if posts == [] then []
    else
      assert forall j :: 0 < j && DatedAt(posts, j) ==> DatedAt(posts[1..], j - 1);
      if HasDates(posts[0]) then [posts[0]] + FilterEvents(posts[1..])
      else FilterEvents(posts[1..])
  }

  /**
   * Reference definition of the filter: the positions `j` in `[from, |posts|)`
   * whose post has both dates, in increasing order.
   */
  function DatedPositions(posts: seq<EventMeta>, from: nat): (r: seq<nat>)
    requires from <= |posts|
    ensures forall k :: 0 <= k < |r| ==> from <= r[k] && DatedAt(posts, r[k])
    ensures forall k, l :: 0 <= k < l < |r| ==> r[k] < r[l]
    ensures forall j :: from <= j && DatedAt(posts, j) ==> j in r
    decreases |posts| - from
  {
    if from == |posts| then []
    else if HasDates(posts[from]) then [from] + DatedPositions(posts, from + 1)
    else DatedPositions(posts, from + 1)
  }

  /** One step of the filter: the head is kept exactly when it has both dates. */
  lemma FilterStep(posts: seq<EventMeta>)
    requires posts != []
    ensures FilterEvents(posts) == (if HasDates(posts[0]) then [posts[0]] else []) + FilterEvents(posts[1..])
  {
  }

  /** One step of the reference definition: position `from` is listed exactly when it is dated. */
  lemma PositionsStep(posts: seq<EventMeta>, from: nat)
    requires from < |posts|
    ensures DatedPositions(posts, from)
         == (if HasDates(posts[from]) then [from] else []) + DatedPositions(posts, from + 1)
  {
  }

  /** The filter of a suffix is as long as the list of its dated positions. */
  lemma {:induction false} FilterLengthFollowsPositions(posts: seq<EventMeta>, from: nat)
    requires from <= |posts|
    ensures |FilterEvents(posts[from..])| == |DatedPositions(posts, from)|
    decreases |posts| - from
  {
    if from < |posts| {
      FilterLengthFollowsPositions(posts, from + 1);
      var tail := posts[from..];
      assert tail[0] == posts[from] && tail[1..] == posts[from + 1..];
      FilterStep(tail);
      PositionsStep(posts, from);
    }
  }

  /** The `k`-th event kept from a suffix is the post at its `k`-th dated position. */
  lemma {:induction false} FilterAtPosition(posts: seq<EventMeta>, from: nat, k: nat)
    requires from <= |posts| && k < |DatedPositions(posts, from)|
    ensures |FilterEvents(posts[from..])| == |DatedPositions(posts, from)|
    ensures FilterEvents(posts[from..])[k] == posts[DatedPositions(posts, from)[k]]
    decreases |posts| - from
  {
    FilterLengthFollowsPositions(posts, from);
    var tail := posts[from..];
    assert tail[0] == posts[from] && tail[1..] == posts[from + 1..];
    FilterStep(tail);
    PositionsStep(posts, from);
    var all, idx := FilterEvents(tail), DatedPositions(posts, from);
    var rest, restIdx := FilterEvents(posts[from + 1..]), DatedPositions(posts, from + 1);
    if HasDates(posts[from]) {
      assert all == [posts[from]] + rest && idx == [from] + restIdx;
      if k > 0 {
        FilterAtPosition(posts, from + 1, k - 1);
        assert all[k] == rest[k - 1] && idx[k] == restIdx[k - 1];
      }
    } else {
      assert all == rest && idx == restIdx;
      FilterAtPosition(posts, from + 1, k);
    }
  }

  /**
   * The stored event list is exactly the posts at the dated positions, taken
   * in increasing order of position: nothing dated is dropped, nothing undated
   * is kept, and the original order is preserved.
   */
  lemma FilterKeepsExactlyDatedInOrder(posts: seq<EventMeta>)
    ensures var r, idx := FilterEvents(posts), DatedPositions(posts, 0);
      |r| == |idx|
      && (forall k :: 0 <= k < |r| ==> r[k] == posts[idx[k]])
      && (forall k, l :: 0 <= k < l < |idx| ==> idx[k] < idx[l])
      && (forall j :: 0 <= j < |posts| ==> (j in idx <==> HasDates(posts[j])))
  {
    assert posts[0..] == posts;
    FilterLengthFollowsPositions(posts, 0);
    forall k | 0 <= k < |DatedPositions(posts, 0)|
      ensures FilterEvents(posts)[k] == posts[DatedPositions(posts, 0)[k]]
    {
      FilterAtPosition(posts, 0, k);
    }
  }

  /** A fetch whose posts all carry both dates is stored unchanged. */
  lemma {:induction false} FilterKeepsAllDated(posts: seq<EventMeta>)
    requires forall e :: e in posts ==> HasDates(e)
    ensures FilterEvents(posts) == posts
  {
    if posts != [] {
      assert posts[0] in posts;
      FilterKeepsAllDated(posts[1..]);
      assert [posts[0]] + posts[1..] == posts;
    }
  }

  /** Filtering an already filtered list changes nothing. */
  lemma FilterIdempotent(posts: seq<EventMeta>)
    ensures FilterEvents(FilterEvents(posts)) == FilterEvents(posts)
  {
  }

  /** Filtering a concatenation filters each part. */
  lemma {:induction false} FilterConcat(a: seq<EventMeta>, b: seq<EventMeta>)
    ensures FilterEvents(a + b) == FilterEvents(a) + FilterEvents(b)
  {
    if a != [] {
      assert (a + b)[0] == a[0];
      assert (a + b)[1..] == a[1..] + b;
      FilterConcat(a[1..], b);
    } else {
      assert a + b == b;
    }
  }

  /** What pressing "enter" on an event does. */
  datatype EnterAction =
    | Ignore                              // the level branch returns immediately
    | OpenCollection(collectionId: string) // go to the collection details screen

  /**
   * A non-null level id makes "enter" do nothing; otherwise a non-null
   * collection id opens that collection; otherwise nothing happens.
   */
  function EnterActionOf(meta: EventMeta): (a: EnterAction)
    ensures a.OpenCollection? <==> meta.levelId.None? && meta.collectionId.Some?
    ensures a.OpenCollection? ==> a.collectionId == meta.collectionId.value
  {
    if meta.levelId.Some? then Ignore
    else if meta.collectionId.Some? then OpenCollection(meta.collectionId.value)
    else Ignore
  }
}
