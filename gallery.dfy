/**
 * The gallery page: a fixed media list, a type filter, and a lightbox that
 * shows one item and steps through the filtered items with wrap-around.
 */
module Gallery {
  import opened Common

  datatype MediaKind = Image | Video

  /** `cover` is an image's optional thumbnail or a video's poster. */
  datatype Media = Media(id: string, kind: MediaKind, src: string, alt: string, cover: Option<string>)

  const MEDIA: seq<Media> := [
    Media("img-01", Image, "/media/home-view.jpg", "Home view over the sea", None),
    Media("img-02", Image, "/media/manzara.jpg", "Scenic valley and sea panorama", None),
    Media("img-03", Image, "/media/villa-01.jpg", "Villa exterior with pool", None),
    Media("img-04", Image, "/media/villa-02.jpg", "Garden and terrace", None),
    Media("img-05", Image, "/media/villa-03.jpg", "Poolside seating at sunset", None),
    Media("img-06", Image, "/media/villa-livingroom.jpg", "Modern living room", None),
    Media("img-07", Image, "/media/villa-master-bedroom.jpg", "Master bedroom with balcony", None),
    Media("vid-01", Video, "/media/tour-01.mp4", "Property tour", Some("/media/tour-01-poster.jpg"))
  ]

  predicate DistinctIds(ms: seq<Media>) {
    forall i, j :: 0 <= i < j < |ms| ==> ms[i].id != ms[j].id
  }

  predicate NonEmptyIds(ms: seq<Media>) {
    forall i :: 0 <= i < |ms| ==> ms[i].id != ""
  }

  lemma MediaWellFormed()
    ensures DistinctIds(MEDIA) && NonEmptyIds(MEDIA)
  {
  }

  /* ---------- Filter ---------- */

  datatype Filter = All | Photos | Videos

  /** `ms.filter(m => m.type === kind)`. */
  function OfKind(ms: seq<Media>, kind: MediaKind): (r: seq<Media>)
    ensures |r| <= |ms|
    ensures forall k :: 0 <= k < |r| ==> r[k].kind == kind
    decreases |ms|
  {
    if ms == [] then []
    else if ms[0].kind == kind then [ms[0]] + OfKind(ms[1..], kind)
    else OfKind(ms[1..], kind)
  }

  /** The filter keeps exactly the items of the kind. */
  lemma {:induction false} OfKindMembers(ms: seq<Media>, kind: MediaKind)
    ensures forall m :: m in OfKind(ms, kind) <==> m in ms && m.kind == kind
    decreases |ms|
  {
    if ms != [] {
      OfKindMembers(ms[1..], kind);
      assert forall m :: m in ms <==> m == ms[0] || m in ms[1..];
    }
  }

  /** Filtering a concatenation filters each part and keeps them in order. */
  lemma {:induction false} OfKindAppend(a: seq<Media>, b: seq<Media>, kind: MediaKind)
    ensures OfKind(a + b, kind) == OfKind(a, kind) + OfKind(b, kind)
    decreases |a|
  {
    if a == [] {
      assert a + b == b;
    } else {
      assert (a + b)[0] == a[0];
      assert (a + b)[1..] == a[1..] + b;
      OfKindAppend(a[1..], b, kind);
    }
  }

  /** The photos and the videos together are the whole list. */
  lemma {:induction false} OfKindPartition(ms: seq<Media>)
    ensures multiset(OfKind(ms, Image)) + multiset(OfKind(ms, Video)) == multiset(ms)
    decreases |ms|
  {
    if ms != [] {
      OfKindPartition(ms[1..]);
      assert ms == [ms[0]] + ms[1..];
    }
  }

  lemma {:induction false} OfKindKeepsDistinct(ms: seq<Media>, kind: MediaKind)
    requires DistinctIds(ms)
    ensures DistinctIds(OfKind(ms, kind))
    decreases |ms|
  {
    if ms != [] {
      var tail := ms[1..];
      assert DistinctIds(tail) by {
        forall i, j | 0 <= i < j < |tail| ensures tail[i].id != tail[j].id {
          assert tail[i] == ms[i + 1] && tail[j] == ms[j + 1];
        }
      }
      OfKindKeepsDistinct(tail, kind);
      if ms[0].kind == kind {
        var rest := OfKind(tail, kind);
        OfKindMembers(tail, kind);
        forall k | 0 <= k < |rest| ensures rest[k].id != ms[0].id {
          assert rest[k] in tail;
          var j :| 0 <= j < |tail| && tail[j] == rest[k];
          assert tail[j] == ms[j + 1];
        }
        var r := [ms[0]] + rest;
        forall i, j | 0 <= i < j < |r| ensures r[i].id != r[j].id {
          assert r[j] == rest[j - 1];
          if i > 0 { assert r[i] == rest[i - 1]; }
        }
      }
    }
  }

  /** The items the grid shows for a filter. */
  function Items(f: Filter, ms: seq<Media>): (r: seq<Media>)
    ensures f == All ==> r == ms
    ensures forall m :: m in r <==> m in ms && (f == Photos ==> m.kind == Image) && (f == Videos ==> m.kind == Video)
  {
    OfKindMembers(ms, Image);
    OfKindMembers(ms, Video);
    match f
    case Photos => OfKind(ms, Image)
    case Videos => OfKind(ms, Video)
    case All => ms
  }

  /** Filtering keeps ids distinct and non-empty. */
  lemma ItemsWellFormed(f: Filter, ms: seq<Media>)
    requires DistinctIds(ms) && NonEmptyIds(ms)
    ensures DistinctIds(Items(f, ms)) && NonEmptyIds(Items(f, ms))
  {
    var r := Items(f, ms);
    if f != All {
      OfKindKeepsDistinct(ms, if f == Photos then Image else Video);
    }
    forall i | 0 <= i < |r| ensures r[i].id != "" {
      assert r[i] in ms;
    }
  }

  /** On the page's list, the photos are the first seven entries and the video the last. */
  lemma ItemsOfMedia()
    ensures Items(Photos, MEDIA) == MEDIA[..7]
    ensures Items(Videos, MEDIA) == MEDIA[7..]
  {
    SplitByKind(MEDIA, 7);
  }

  /** A list of images followed by videos splits at the first video. */
  lemma {:induction false} SplitByKind(ms: seq<Media>, k: nat)
    requires k <= |ms|
    requires forall i :: 0 <= i < k ==> ms[i].kind == Image
    requires forall i :: k <= i < |ms| ==> ms[i].kind == Video
    ensures OfKind(ms, Image) == ms[..k] && OfKind(ms, Video) == ms[k..]
    decreases k
  {
    if k == 0 {
      NoneOfKind(ms, Image);
      AllOfKind(ms, Video);
    } else {
      var tail := ms[1..];
      forall i | 0 <= i < k - 1 ensures tail[i].kind == Image {
        assert tail[i] == ms[i + 1];
      }
      forall i | k - 1 <= i < |tail| ensures tail[i].kind == Video {
        assert tail[i] == ms[i + 1];
      }
      SplitByKind(tail, k - 1);
      assert ms[0].kind == Image;
      assert OfKind(ms, Image) == [ms[0]] + OfKind(tail, Image);
      assert OfKind(ms, Video) == OfKind(tail, Video);
      assert ms[..k] == [ms[0]] + tail[..k - 1];
      assert ms[k..] == tail[k - 1..];
    }
  }

  lemma {:induction false} AllOfKind(ms: seq<Media>, kind: MediaKind)
    requires forall i :: 0 <= i < |ms| ==> ms[i].kind == kind
    ensures OfKind(ms, kind) == ms
    decreases |ms|
  {
    if ms != [] {
      AllOfKind(ms[1..], kind);
    }
  }

  lemma {:induction false} NoneOfKind(ms: seq<Media>, kind: MediaKind)
    requires forall i :: 0 <= i < |ms| ==> ms[i].kind != kind
    ensures OfKind(ms, kind) == []
    decreases |ms|
  {
    if ms != [] {
      NoneOfKind(ms[1..], kind);
    }
  }

  /* ---------- Active index ---------- */

  /** `items.findIndex(i => i.id === id)`: the first match, or -1. */
  function FindIndex(items: seq<Media>, id: string): (r: int)
    ensures -1 <= r < |items|
    ensures r == -1 <==> forall j :: 0 <= j < |items| ==> items[j].id != id
    ensures r >= 0 ==> items[r].id == id && forall j :: 0 <= j < r ==> items[j].id != id
    decreases |items|
  {
    if items == [] then -1
    else if items[0].id == id then 0
    else
      var k := FindIndex(items[1..], id);
      assert forall j :: 1 <= j < |items| ==> items[j] == items[1..][j - 1];
      if k < 0 then -1 else k + 1
  }

  lemma FindIndexOfDistinct(items: seq<Media>, k: nat)
    requires DistinctIds(items) && k < |items|
    ensures FindIndex(items, items[k].id) == k
  {
  }

  /** No active id (or the empty id, which is falsy) shows nothing. */
  function ActiveIndex(activeId: Option<string>, items: seq<Media>): (r: int)
    ensures -1 <= r < |items|
    ensures r >= 0 <==> activeId.Some? && activeId.value != "" &&
                        exists j :: 0 <= j < |items| && items[j].id == activeId.value
    ensures r >= 0 ==> items[r].id == activeId.value &&
                       forall j :: 0 <= j < r ==> items[j].id != activeId.value
  {
    if activeId.None? || activeId.value == "" then -1 else FindIndex(items, activeId.value)
  }

  /* ---------- Lightbox navigation ---------- */

  type Direction = d: int | d == 1 || d == -1 witness 1

  /** `(index + dir + len) % len`; the dividend is never negative, so JavaScript's `%` agrees. */
  function Wrap(index: int, dir: Direction, len: nat): (r: int)
    requires 0 <= index < len
    ensures 0 <= r < len
    ensures dir == 1 ==> r == if index == len - 1 then 0 else index + 1
    ensures dir == -1 ==> r == if index == 0 then len - 1 else index - 1
  {
    WrapCases(index, dir, len);
    (index + dir + len) % len
  }

  lemma WrapCases(index: int, dir: Direction, len: nat)
    requires 0 <= index < len
    ensures (index + dir + len) % len ==
      if dir == 1 then (if index == len - 1 then 0 else index + 1)
      else (if index == 0 then len - 1 else index - 1)
  {
  }

  /** Stepping from a shown item activates the item `Wrap` names, whose index is then the active one. */
  lemma StepLandsOn(items: seq<Media>, index: int, dir: Direction)
    requires DistinctIds(items) && NonEmptyIds(items) && 0 <= index < |items|
    ensures var next := Wrap(index, dir, |items|);
      next == (index + dir + |items|) % |items| &&
      ActiveIndex(Some(items[next].id), items) == next
  {
  }

  class GalleryPage {
    var filter: Filter
    var activeId: Option<string>

    constructor ()
      ensures filter == All && activeId == None
      ensures !LightboxShown()
    {
      filter := All;
      activeId := None;
    }

    function ItemsNow(): seq<Media>
      reads this
    {
      Items(filter, MEDIA)
    }

    function ActiveIndexNow(): int
      reads this
    {
      ActiveIndex(activeId, ItemsNow())
    }

    /** The lightbox is rendered exactly when the active index is valid. */
    predicate LightboxShown(): (shown: bool)
      reads this
      ensures shown <==> activeId.Some? && activeId.value != "" &&
                         exists j :: 0 <= j < |ItemsNow()| && ItemsNow()[j].id == activeId.value
      ensures shown ==> ItemsNow()[ActiveIndexNow()].id == activeId.value
    {
      ActiveIndexNow() >= 0
    }

    method SetFilter(f: Filter)
      modifies this
      ensures filter == f && activeId == old(activeId)
      ensures LightboxShown() <==> activeId.Some? && activeId.value != "" &&
                                   exists j :: 0 <= j < |ItemsNow()| && ItemsNow()[j].id == activeId.value
    {
      filter := f;
    }

    method Open(id: string)
      modifies this
      ensures filter == old(filter) && activeId == Some(id)
      ensures id != "" && (exists j :: 0 <= j < |ItemsNow()| && ItemsNow()[j].id == id) ==>
        LightboxShown() && ItemsNow()[ActiveIndexNow()].id == id
    {
      activeId := Some(id);
    }

    method Close()
      modifies this
      ensures filter == old(filter) && activeId == None
      ensures !LightboxShown()
    {
      activeId := None;
    }

    method Go(dir: Direction)
      modifies this
      ensures filter == old(filter)
      ensures old(ActiveIndexNow()) < 0 ==> activeId == old(activeId)
      ensures old(ActiveIndexNow()) >= 0 ==>
        LightboxShown() && ActiveIndexNow() == Wrap(old(ActiveIndexNow()), dir, |ItemsNow()|)
    {
      var items := ItemsNow();
      var index := ActiveIndexNow();
      if index < 0 {
        return;
      }
      var next := (index + dir + |items|) % |items|;
      MediaWellFormed();
      ItemsWellFormed(filter, MEDIA);
      StepLandsOn(items, index, dir);
      activeId := Some(items[next].id);
    }
  }
}
