/** The post list of `OutputGallery` (src/pages/OutputGallery.tsx): the
    status filter, the sort that puts scheduled posts before drafts and
    drafts before posted ones, the 12-hour clock text and the choice of
    what a card shows under its caption.

    `Array.prototype.sort` is stable; it is modelled by insertion sort,
    which is, and the result is proved to be the one stable arrangement
    by status, which any stable sort produces. */
module OutputGallery {
  import opened Text
  import opened Seqs
  import opened PostDetailModal

  /** `activeFilter`. */
  datatype StatusFilter = All | Only(status: Status)

  /** The filter callback. */
  predicate Shown(f: StatusFilter, p: ScheduledPost) {
    f.All? || p.status == f.status
  }

  function ShownBy(f: StatusFilter): ScheduledPost -> bool {
    p => Shown(f, p)
  }

  /** The `filter` step of `sortedAndFilteredPosts`. */
  function FilterPosts(posts: seq<ScheduledPost>, f: StatusFilter): seq<ScheduledPost> {
    Filter(posts, ShownBy(f))
  }

  /** The posts with status `st`, in their order. */
  function Keep(posts: seq<ScheduledPost>, st: Status): seq<ScheduledPost> {
    FilterPosts(posts, Only(st))
  }

  /** The filter "all" keeps every post. */
  lemma FilterAllKeepsAll(posts: seq<ScheduledPost>)
    ensures FilterPosts(posts, All) == posts
  {
    FilterAll(posts, ShownBy(All));
  }

  /** A status filter keeps exactly the posts with that status, each as
      often as it occurs, and in their order. */
  lemma FilterOnlyExact(posts: seq<ScheduledPost>, st: Status, p: ScheduledPost)
    ensures multiset(Keep(posts, st))[p] == if p.status == st then multiset(posts)[p] else 0
  {
    FilterCount(posts, ShownBy(Only(st)), p);
  }

  /** `statusOrder`. */
  function Rank(st: Status): (r: nat)
    ensures r <= 2
  {
    match st
    case Scheduled => 0
    case Draft => 1
    case Posted => 2
  }

  /** Inserts `x` into the sorted `s` after every post of rank at most its
      own, which keeps posts of equal rank in the order they came. */
  function Insert(s: seq<ScheduledPost>, x: ScheduledPost): seq<ScheduledPost>
    decreases |s|
  {
    if s == [] then [x]
    else if Rank(s[0].status) > Rank(x.status) then [x] + s
    else [s[0]] + Insert(s[1..], x)
  }

  /** The comparator sort of `sortedAndFilteredPosts`. */
  function Sort(s: seq<ScheduledPost>): seq<ScheduledPost>
    decreases |s|
  {
    if s == [] then [] else Insert(Sort(s[..|s| - 1]), s[|s| - 1])
  }

  /** The stable arrangement by status: the scheduled posts, then the
      drafts, then the posted ones, each group in its original order. */
  function ByStatus(s: seq<ScheduledPost>): seq<ScheduledPost> {
    Keep(s, Scheduled) + Keep(s, Draft) + Keep(s, Posted)
  }

  predicate AllRanked(s: seq<ScheduledPost>, lo: nat, hi: nat) {
    forall i | 0 <= i < |s| :: lo <= Rank(s[i].status) <= hi
  }

  lemma {:induction false} InsertBetween(p: seq<ScheduledPost>, q: seq<ScheduledPost>, x: ScheduledPost)
    requires AllRanked(p, 0, Rank(x.status))
    requires AllRanked(q, Rank(x.status) + 1, 2)
    ensures Insert(p + q, x) == p + [x] + q
    decreases |p|
  {
    if p == [] {
      assert p + q == q;
      assert p + [x] + q == [x] + q;
    } else {
      assert (p + q)[0] == p[0];
      assert (p + q)[1..] == p[1..] + q;
      InsertBetween(p[1..], q, x);
      assert p + [x] + q == [p[0]] + (p[1..] + [x] + q);
    }
  }

  lemma KeepRank(s: seq<ScheduledPost>, st: Status)
    ensures AllRanked(Keep(s, st), Rank(st), Rank(st))
    ensures forall i | 0 <= i < |Keep(s, st)| :: Keep(s, st)[i].status == st
  {
    FilterKept(s, ShownBy(Only(st)));
    var k := Keep(s, st);
    assert forall i | 0 <= i < |k| :: k[i] in k;
  }

  lemma KeepLast(s: seq<ScheduledPost>, x: ScheduledPost, st: Status)
    ensures Keep(s + [x], st) == Keep(s, st) + (if x.status == st then [x] else [])
  {
    FilterAppend(s, [x], ShownBy(Only(st)));
    assert [x][1..] == [];
  }

  /** Inserting into three groups of ranks 0, 1 and 2 adds the post at the
      end of its own group. */
  lemma InsertIntoGroups(a: seq<ScheduledPost>, b: seq<ScheduledPost>, c: seq<ScheduledPost>, x: ScheduledPost)
    requires AllRanked(a, 0, 0) && AllRanked(b, 1, 1) && AllRanked(c, 2, 2)
    ensures Insert(a + b + c, x)
         == (a + (if x.status == Scheduled then [x] else []))
          + (b + (if x.status == Draft then [x] else []))
          + (c + (if x.status == Posted then [x] else []))
  {
    match x.status {
      case Scheduled =>
        assert a + b + c == a + (b + c);
        InsertBetween(a, b + c, x);
        assert a + [x] + (b + c) == (a + [x]) + (b + []) + (c + []);
      case Draft =>
        assert a + b + c == (a + b) + c;
        InsertBetween(a + b, c, x);
        assert (a + b) + [x] + c == (a + []) + (b + [x]) + (c + []);
      case Posted =>
        assert a + b + c == (a + b + c) + [];
        InsertBetween(a + b + c, [], x);
        assert (a + b + c) + [x] + [] == (a + []) + (b + []) + (c + [x]);
    }
  }

  /** The sort produces the stable arrangement by status. */
  lemma {:induction false} SortIsByStatus(s: seq<ScheduledPost>)
    ensures Sort(s) == ByStatus(s)
    decreases |s|
  {
    if s != [] {
      var init, x := s[..|s| - 1], s[|s| - 1];
      assert s == init + [x];
      assert Sort(s) == Insert(Sort(init), x);
      SortIsByStatus(init);
      KeepRank(init, Scheduled);
      KeepRank(init, Draft);
      KeepRank(init, Posted);
      InsertIntoGroups(Keep(init, Scheduled), Keep(init, Draft), Keep(init, Posted), x);
      KeepLast(init, x, Scheduled);
      KeepLast(init, x, Draft);
      KeepLast(init, x, Posted);
    }
  }

  /** The sorted list has every scheduled post before every draft and every
      draft before every posted one. */
  lemma SortOrdered(s: seq<ScheduledPost>)
    ensures forall i, j | 0 <= i < j < |Sort(s)| :: Rank(Sort(s)[i].status) <= Rank(Sort(s)[j].status)
  {
    SortIsByStatus(s);
    var a, b, c := Keep(s, Scheduled), Keep(s, Draft), Keep(s, Posted);
    KeepRank(s, Scheduled);
    KeepRank(s, Draft);
    KeepRank(s, Posted);
    var r := a + b + c;
    forall i, j | 0 <= i < j < |r| ensures Rank(r[i].status) <= Rank(r[j].status) {
      assert Rank(r[i].status) == if i < |a| then 0 else if i < |a| + |b| then 1 else 2;
      assert Rank(r[j].status) == if j < |a| then 0 else if j < |a| + |b| then 1 else 2;
    }
  }

  /** The sorted list is a permutation of the list sorted. */
  lemma SortPermutes(s: seq<ScheduledPost>)
    ensures multiset(Sort(s)) == multiset(s)
  {
    SortIsByStatus(s);
    forall p | true
      ensures multiset(ByStatus(s))[p] == multiset(s)[p]
    {
      FilterOnlyExact(s, Scheduled, p);
      FilterOnlyExact(s, Draft, p);
      FilterOnlyExact(s, Posted, p);
    }
    assert multiset(ByStatus(s)) == multiset(s);
  }

  lemma KeepNone(s: seq<ScheduledPost>, st: Status)
    requires forall i | 0 <= i < |s| :: s[i].status != st
    ensures Keep(s, st) == []
  {
    FilterNone(s, ShownBy(Only(st)));
  }

  lemma KeepAll(s: seq<ScheduledPost>, st: Status)
    requires forall i | 0 <= i < |s| :: s[i].status == st
    ensures Keep(s, st) == s
  {
    FilterAll(s, ShownBy(Only(st)));
  }

  lemma KeepOfThree(a: seq<ScheduledPost>, b: seq<ScheduledPost>, c: seq<ScheduledPost>, st: Status)
    requires forall i | 0 <= i < |a| :: a[i].status == Scheduled
    requires forall i | 0 <= i < |b| :: b[i].status == Draft
    requires forall i | 0 <= i < |c| :: c[i].status == Posted
    ensures Keep(a + b + c, st) == match st case Scheduled => a case Draft => b case Posted => c
  {
    FilterAppend(a + b, c, ShownBy(Only(st)));
    FilterAppend(a, b, ShownBy(Only(st)));
    match st {
      case Scheduled =>
        KeepAll(a, st);
        KeepNone(b, st);
        KeepNone(c, st);
        assert a + [] + [] == a;
      case Draft =>
        KeepNone(a, st);
        KeepAll(b, st);
        KeepNone(c, st);
        assert [] + b + [] == b;
      case Posted =>
        KeepNone(a, st);
        KeepNone(b, st);
        KeepAll(c, st);
        assert [] + [] + c == c;
    }
  }

  /** Keeping one status of the three groups keeps that status's group. */
  lemma KeepOfGroups(s: seq<ScheduledPost>, st: Status)
    ensures Keep(ByStatus(s), st) == Keep(s, st)
  {
    KeepRank(s, Scheduled);
    KeepRank(s, Draft);
    KeepRank(s, Posted);
    KeepOfThree(Keep(s, Scheduled), Keep(s, Draft), Keep(s, Posted), st);
  }

  /** The sort is stable: the posts of one status come out in the order
      they went in. */
  lemma SortStable(s: seq<ScheduledPost>, st: Status)
    ensures Keep(Sort(s), st) == Keep(s, st)
  {
    SortIsByStatus(s);
    KeepOfGroups(s, st);
  }

  /** `sortedAndFilteredPosts`. */
  function SortedAndFiltered(posts: seq<ScheduledPost>, f: StatusFilter): seq<ScheduledPost> {
    Sort(FilterPosts(posts, f))
  }

  /** With a status filter the list shows that status's posts in their
      original order; with "all" it shows the stable arrangement by
      status of every post. */
  lemma GalleryList(posts: seq<ScheduledPost>, f: StatusFilter)
    ensures f.Only? ==> SortedAndFiltered(posts, f) == Keep(posts, f.status)
    ensures f.All? ==> SortedAndFiltered(posts, f) == ByStatus(posts)
  {
    var shown := FilterPosts(posts, f);
    SortIsByStatus(shown);
    if f.Only? {
      var st := f.status;
      KeepRank(posts, st);
      KeepAll(shown, st);
      forall other: Status | other != st ensures Keep(shown, other) == [] {
        KeepNone(shown, other);
      }
      match st {
        case Scheduled => assert shown + [] + [] == shown;
        case Draft => assert [] + shown + [] == shown;
        case Posted => assert [] + [] + shown == shown;
      }
    } else {
      FilterAllKeepsAll(posts);
    }
  }

  /** `a % b` as JavaScript computes it on integers: truncated toward zero,
      so the remainder takes the sign of `a`. */
  function JsRem(a: int, b: int): (r: int)
    requires b > 0
    ensures a >= 0 ==> r == a % b
    ensures -b < r < b
  {
    if a >= 0 then a % b else -((-a) % b)
  }

  /** `h % 12 || 12`, `NaN` (`None`) and a zero remainder being falsy. */
  function Hour12(h: Option<int>): (r: int)
    ensures h.None? ==> r == 12
    ensures h.Some? && h.value >= 0 ==> 1 <= r <= 12 && r % 12 == h.value % 12
  {
    if h.None? then 12
    else
      var m := JsRem(h.value, 12);
      if m == 0 then 12 else m
  }

  /** `h >= 12 ? "PM" : "AM"`; `NaN >= 12` is false. */
  function Suffix(h: Option<int>): string {
    if h.Some? && h.value >= 12 then "PM" else "AM"
  }

  /** `formatTime(time)`: the text before the first `:` read with
      `parseInt` as the hour, the text after it as the minutes, which read
      "undefined" when there is no `:`. */
  function FormatTime(time: string): string {
    var parts := Split(time, ':');
    var h := ParseInt(parts[0]);
    var minutes := if |parts| >= 2 then parts[1] else "undefined";
    ShowInt(Hour12(h)) + ":" + minutes + " " + Suffix(h)
  }

  /** A time of the form hours ":" minutes keeps its minutes verbatim. */
  lemma FormatTimeParts(hours: string, minutes: string)
    requires ':' !in hours && ':' !in minutes
    ensures FormatTime(hours + ":" + minutes)
         == ShowInt(Hour12(ParseInt(hours))) + ":" + minutes + " " + Suffix(ParseInt(hours))
  {
    JoinCons(hours, [minutes], ":");
    assert Join([minutes], ":") == minutes;
    SplitJoin([hours, minutes], ':');
  }

  /** A time without `:` shows the minutes as "undefined". */
  lemma FormatTimeNoColon(time: string)
    requires ':' !in time
    ensures FormatTime(time) == ShowInt(Hour12(ParseInt(time))) + ":" + "undefined" + " " + Suffix(ParseInt(time))
  {
    SplitWithout(time, ':');
  }

  /** The two-digit text of an hour, as the posts write it. */
  function TwoDigits(h: nat): (r: string)
    requires h < 24
    ensures |r| == 2 && ':' !in r
  {
    [DigitChar(h / 10), DigitChar(h % 10)]
  }

  lemma TwoDigitsValue(c0: char, c1: char)
    ensures DigitsValue([c0, c1], false) == DigitValue(c0, false) * 10 + DigitValue(c1, false)
  {
    assert [c0, c1][..1] == [c0];
    assert [c0][..0] == [];
    assert DigitsValue([c0], false) == DigitValue(c0, false);
    assert DigitsValue([c0, c1], false) == DigitsValue([c0], false) * 10 + DigitValue(c1, false);
  }

  lemma ParseTwoDigits(h: nat)
    requires h < 24
    ensures ParseInt(TwoDigits(h)) == Some(h)
  {
    var u := TwoDigits(h);
    assert u == [u[0], u[1]];
    assert DigitValue(u[0], false) * 10 + DigitValue(u[1], false) == h by {
      DigitCharValue(h / 10);
      DigitCharValue(h % 10);
      DecimalStep(DigitValue(u[0], false), DigitValue(u[1], false), h / 10, h % 10, h);
    }
    TwoDigitsValue(u[0], u[1]);
    assert ParseUnsigned(u) == Some(h) by {
      assert !(u[1] == 'x' || u[1] == 'X');
      DigitRunAll(u, false);
    }
    ParseIntDigits(u);
  }

  /** For an hour from 0 to 23 written with two digits, the clock text
      shows the hour from 1 to 12 that `h % 12 || 12` gives, the minutes
      as written, and "PM" exactly from 12 on: 00 is 12 AM, 12 is 12 PM. */
  lemma FormatDayTime(h: nat, minutes: string)
    requires h < 24 && ':' !in minutes
    ensures var h12 := if h % 12 == 0 then 12 else h % 12;
      1 <= h12 <= 12 &&
      FormatTime(TwoDigits(h) + ":" + minutes) == ShowNat(h12) + ":" + minutes + " " + (if h >= 12 then "PM" else "AM")
  {
    FormatTimeParts(TwoDigits(h), minutes);
    ParseTwoDigits(h);
  }

  /** What a card shows under its caption. */
  datatype Footer = LikedBy(who: string, likes: int) | When(date: string, time: string)

  /** The liked-by line for a posted post with a non-zero like count and a
      non-empty name; otherwise the date and the 12-hour time. */
  function CardFooter(post: ScheduledPost): (r: Footer)
    ensures r.LikedBy? <==>
      post.status == Posted && post.likes.Some? && post.likes.value != 0 && post.likedBy.Some? && post.likedBy.value != ""
    ensures r.LikedBy? ==> r.who == post.likedBy.value && r.likes == post.likes.value
    ensures r.When? ==> r.date == post.scheduledDate && r.time == FormatTime(post.scheduledTime)
  {
    match (post.status, post.likes, post.likedBy)
    case (Posted, Some(n), Some(who)) =>
      if n != 0 && who != "" then LikedBy(who, n) else When(post.scheduledDate, FormatTime(post.scheduledTime))
    case _ => When(post.scheduledDate, FormatTime(post.scheduledTime))
  }
}
