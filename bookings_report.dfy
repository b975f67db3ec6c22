/** The admin bookings report: the filtered list, its pages, the totals shown above it and
    the three most-booked movies. Dates are millisecond timestamps; a day is the UTC day. */
module BookingsReport {
  import opened Collections
  import opened Text

  const DayMillis := 86400000
  const ItemsPerPage := 10
  const PopularLimit := 3
  const LoadFailedMessage := "Failed to load bookings data"

  /** A booking as the report reads it. A missing string field is the empty string, a
      missing amount is `None` and a missing seat list counts 0 seats. */
  datatype ReportBooking = ReportBooking(
    id: string, customerName: string, customerEmail: string,
    movieId: string, movieTitle: string, theaterName: string,
    status: string, totalAmount: Option<real>, bookingDate: int, seatCount: nat)

  /** The filter inputs. An empty string means "not set"; a date is the start of its day. */
  datatype ReportFilter = ReportFilter(
    fromDate: Option<int>, toDate: Option<int>,
    movie: string, theater: string, status: string, search: string)

  const NoFilter := ReportFilter(None, None, "", "", "", "")

  /** The date criterion: applied only when both dates are set; the "to" day counts up to
      its last millisecond. */
  predicate InDateRange(b: ReportBooking, f: ReportFilter)
  {
    f.fromDate.None? || f.toDate.None? ||
    (f.fromDate.value <= b.bookingDate && b.bookingDate <= f.toDate.value + DayMillis - 1)
  }

  predicate MatchesSearch(b: ReportBooking, term: string)
  {
    Lower(term) == [] || ContainsIgnoringCase(b.customerName, term)
    || ContainsIgnoringCase(b.customerEmail, term) || ContainsIgnoringCase(b.id, term)
  }

  predicate Kept(b: ReportBooking, f: ReportFilter)
  {
    && InDateRange(b, f)
    && MatchesSearch(b, f.search)
    && (f.movie == [] || b.movieTitle == f.movie)
    && (f.theater == [] || b.theaterName == f.theater)
    && (f.status == [] || b.status == f.status)
  }

  function KeptBy(f: ReportFilter): ReportBooking -> bool
  {
    b => Kept(b, f)
  }

  /** `filteredBookings`. */
  function FilteredBookings(all: seq<ReportBooking>, f: ReportFilter): (r: seq<ReportBooking>)
    ensures SubsequenceOf(r, all)
    ensures forall b :: b in r <==> b in all && Kept(b, f)
  {
    Filter(all, KeptBy(f))
  }

  /** With no criterion set, the report lists every booking. */
  lemma NoFilterKeepsAll(all: seq<ReportBooking>)
    ensures FilteredBookings(all, NoFilter) == all
  {
    FilterAll(all, KeptBy(NoFilter));
  }

  /** With both dates set, a booking made at any moment of the "to" day is in range, and one
      made at the first moment of the next day is not. */
  lemma ToDayIncluded(b: ReportBooking, f: ReportFilter)
    requires f.fromDate.Some? && f.toDate.Some? && f.fromDate.value <= f.toDate.value
    ensures f.toDate.value <= b.bookingDate < f.toDate.value + DayMillis ==> InDateRange(b, f)
    ensures b.bookingDate == f.toDate.value + DayMillis ==> !InDateRange(b, f)
  {
  }

  /** Search ignores case: an upper-cased term keeps the same bookings. */
  lemma SearchIgnoresCase(b: ReportBooking, f: ReportFilter)
    ensures Kept(b, f.(search := Upper(f.search))) == Kept(b, f)
  {
    LowerOfUpper(f.search);
  }

  lemma {:induction false} LowerOfUpper(s: string)
    ensures Lower(Upper(s)) == Lower(s)
  {
    var l, u := Lower(Upper(s)), Lower(s);
    assert |l| == |u|;
    forall i | 0 <= i < |s| ensures l[i] == u[i] {
    }
  }

  /** `Math.ceil(n / itemsPerPage)`. */
  function TotalPages(n: nat, perPage: nat): (pages: nat)
    requires perPage > 0
    ensures (pages - 1) * perPage < n <= pages * perPage || (n == 0 && pages == 0)
  {
    CeilDiv(n, perPage)
  }

  /** `paginatedBookings`: the slice starting at `(page - 1) * perPage`. */
  function PageOf<T>(s: seq<T>, page: int, perPage: nat): seq<T>
  {
    var start := (page - 1) * perPage;
    Slice(s, start, start + perPage)
  }

  /** A page from 1 on is the run of at most `perPage` items that starts at its offset
      `start`. */
  lemma PageShape<T>(s: seq<T>, page: int, perPage: nat, start: int)
    requires page >= 1 && start == (page - 1) * perPage
    ensures start >= 0
    ensures PageOf(s, page, perPage) == s[Min(start, |s|)..Min(start + perPage, |s|)]
    ensures |PageOf(s, page, perPage)| <= perPage
  {
    MulNonNegative(page - 1, perPage);
  }

  lemma MulNonNegative(a: nat, b: nat)
    ensures a * b >= 0
  {
  }

  lemma MulNext(k: nat, a: nat)
    ensures (k + 1) * a == k * a + a
  {
  }

  /** The first `k` pages, one after the other. */
  function PagesUpTo<T>(s: seq<T>, perPage: nat, k: nat): seq<T>
  {
    if k == 0 then [] else PagesUpTo(s, perPage, k - 1) + PageOf(s, k, perPage)
  }

  lemma {:induction false} PagesUpToPrefix<T>(s: seq<T>, perPage: nat, k: nat)
    ensures PagesUpTo(s, perPage, k) == s[..Min(k * perPage, |s|)]
  {
    if k > 0 {
      var start := (k - 1) * perPage;
      PagesUpToPrefix(s, perPage, k - 1);
      PageOffsets(k, perPage);
      PageShape(s, k, perPage, start);
      JoinSlices(s, Min(start, |s|), Min(start + perPage, |s|));
    }
  }

  lemma PageOffsets(k: nat, perPage: nat)
    requires k >= 1
    ensures (k - 1) * perPage >= 0 && k * perPage == (k - 1) * perPage + perPage
  {
    MulNext(k - 1, perPage);
    MulNonNegative(k - 1, perPage);
  }

  lemma JoinSlices<T>(s: seq<T>, a: nat, b: nat)
    requires a <= b <= |s|
    ensures s[..a] + s[a..b] == s[..b]
  {
  }

  /** Paging through every page shows the whole filtered list, in order, exactly once. */
  lemma AllPagesCoverList<T>(s: seq<T>, perPage: nat)
    requires perPage > 0
    ensures PagesUpTo(s, perPage, TotalPages(|s|, perPage)) == s
  {
    var k := TotalPages(|s|, perPage);
    PagesUpToPrefix(s, perPage, k);
    MulNonNegative(k, perPage);
    assert s[..|s|] == s;
  }

  /** `getEndIndex`: the position of the last item shown, counting from 1. */
  function EndIndex(page: int, perPage: nat, n: nat): int
  {
    Min(page * perPage, n)
  }

  /** The end index is the page's offset plus the number of items on it. */
  lemma EndIndexCountsShown<T>(s: seq<T>, page: int, perPage: nat)
    requires page >= 1 && (page - 1) * perPage <= |s|
    ensures EndIndex(page, perPage, |s|) == (page - 1) * perPage + |PageOf(s, page, perPage)|
  {
    PageShape(s, page, perPage, (page - 1) * perPage);
    MulNext(page - 1, perPage);
  }

  /** The page after `previousPage`: never below 1. */
  function PreviousPageOf(page: int): (r: int)
    ensures page >= 1 ==> r >= 1
    ensures r <= page && (r == page <==> page <= 1)
  {
    if page > 1 then page - 1 else page
  }

  /** The page after `nextPage`: never beyond the last page. */
  function NextPageOf(page: int, totalPages: nat): (r: int)
    ensures page <= totalPages ==> r <= totalPages
    ensures r >= page && (r == page <==> page >= totalPages)
  {
    if page < totalPages then page + 1 else page
  }

  /** Going forward and then back returns to the same page. */
  lemma NextThenPrevious(page: int, totalPages: nat)
    requires 1 <= page < totalPages
    ensures PreviousPageOf(NextPageOf(page, totalPages)) == page
  {
  }

  function IsConfirmed(b: ReportBooking): bool { b.status == "CONFIRMED" }
  function IsCancelled(b: ReportBooking): bool { b.status == "CANCELLED" }

  /** `b.totalAmount || 0`. */
  function AmountOf(b: ReportBooking): real
  {
    if b.totalAmount.Some? then b.totalAmount.value else 0.0
  }

  /** `totalRevenue`: the amounts of the confirmed bookings. */
  function TotalRevenue(bs: seq<ReportBooking>): real
  {
    SumOf(Filter(bs, IsConfirmed), AmountOf)
  }

  /** One more booking adds its amount to the revenue when it is confirmed, and nothing
      otherwise. */
  lemma RevenueAppend(bs: seq<ReportBooking>, b: ReportBooking)
    ensures TotalRevenue(bs + [b]) == TotalRevenue(bs) + if IsConfirmed(b) then AmountOf(b) else 0.0
  {
    FilterAppend(bs, [b], IsConfirmed);
    SumOfAppend(Filter(bs, IsConfirmed), Filter([b], IsConfirmed), AmountOf);
    assert SumOf([b], AmountOf) == AmountOf(b) by {
      assert [b][..0] == [];
    }
    if IsConfirmed(b) {
      assert Filter([b], IsConfirmed) == [b];
    } else {
      assert Filter([b], IsConfirmed) == [];
    }
  }

  /** `cancelledBookings`. */
  function CancelledCount(bs: seq<ReportBooking>): nat
  {
    CountWhere(bs, IsCancelled)
  }

  /** No booking is both confirmed and cancelled, so the two counts fit in the total. */
  lemma ConfirmedAndCancelledFit(bs: seq<ReportBooking>)
    ensures |Filter(bs, IsConfirmed)| + CancelledCount(bs) <= |bs|
  {
    FilterDisjoint(bs, IsConfirmed, IsCancelled);
  }

  function TicketsOf(b: ReportBooking): real { b.seatCount as real }

  /** `avgTicketsPerBooking`: 0 for an empty list, otherwise total seats over bookings. */
  function AvgTicketsPerBooking(bs: seq<ReportBooking>): (avg: real)
    ensures avg >= 0.0
    ensures |bs| == 0 ==> avg == 0.0
    ensures |bs| > 0 ==> avg * |bs| as real == SumOf(bs, TicketsOf)
  {
    SumOfNonNegative(bs, TicketsOf);
    if |bs| == 0 then 0.0 else SumOf(bs, TicketsOf) / |bs| as real
  }

  /** The UTC day of a timestamp. */
  function DayOf(ms: int): int { ms / DayMillis }

  /** `todayBookings`: the bookings made on day `today`. */
  function BookingsOnDay(bs: seq<ReportBooking>, day: int): nat
  {
    CountWhere(bs, (b: ReportBooking) => DayOf(b.bookingDate) == day)
  }

  /** `getDailyBookingsData`: the counts for the seven days ending today, oldest first. */
  method DailyBookingsData(bs: seq<ReportBooking>, today: int) returns (counts: seq<nat>)
    ensures |counts| == 7
    ensures forall j :: 0 <= j < 7 ==> counts[j] == BookingsOnDay(bs, today - 6 + j)
  {
    counts := [];
    var i := 6;
    while i >= 0
      invariant -1 <= i <= 6 && |counts| == 6 - i
      invariant forall j :: 0 <= j < |counts| ==> counts[j] == BookingsOnDay(bs, today - 6 + j)
    {
      counts := counts + [BookingsOnDay(bs, today - i)];
      i := i - 1;
    }
  }

  // ---- the most-booked movies ----

  /** One entry of the per-movie tally: its key, the title first seen and the count. */
  datatype MovieStat = MovieStat(key: string, title: string, bookings: nat)

  /** One line of the "popular movies" panel. */
  datatype PopularMovie = PopularMovie(title: string, bookings: nat, percentage: real)

  /** `booking.movieId || booking.movieTitle`. */
  function MovieKey(b: ReportBooking): string
  {
    if b.movieId != [] then b.movieId else b.movieTitle
  }

  /** The keys of the tally, in order. */
  function KeysOf(stats: seq<MovieStat>): (ks: seq<string>)
    ensures |ks| == |stats| && forall i :: 0 <= i < |stats| ==> ks[i] == stats[i].key
  {
    seq(|stats|, i requires 0 <= i < |stats| => stats[i].key)
  }

  /** `movieStats.get(key)`: the position of the entry for `key`, if any. */
  function KeyIndex(stats: seq<MovieStat>, key: string): (r: Option<nat>)
    ensures r.Some? ==> r.value < |stats| && stats[r.value].key == key
    ensures r.None? <==> key !in KeysOf(stats)
  {
    if stats == [] then None
    else if stats[0].key == key then Some(0)
    else
      assert KeysOf(stats) == [stats[0].key] + KeysOf(stats[1..]);
      match KeyIndex(stats[1..], key)
      case None => None
      case Some(i) => Some(i + 1)
  }

  /** One step of the `forEach`: bump the booking's movie, or add it with a count of 1. */
  function Counted(stats: seq<MovieStat>, b: ReportBooking): seq<MovieStat>
  {
    match KeyIndex(stats, MovieKey(b))
    case Some(i) => stats[i := stats[i].(bookings := stats[i].bookings + 1)]
    case None => stats + [MovieStat(MovieKey(b), b.movieTitle, 1)]
  }

  /** The tally after the whole `forEach`, in the order keys were first seen. */
  function Tally(bs: seq<ReportBooking>): seq<MovieStat>
  {
    if bs == [] then [] else Counted(Tally(bs[..|bs| - 1]), bs[|bs| - 1])
  }

  /** The number of bookings whose movie key is `key`. */
  function KeyCount(bs: seq<ReportBooking>, key: string): nat
  {
    if bs == [] then 0 else KeyCount(bs[..|bs| - 1], key) + if MovieKey(bs[|bs| - 1]) == key then 1 else 0
  }

  /** `stats` is a faithful tally of `bs`: one entry per key, carrying that key's count. */
  ghost predicate TallyOf(bs: seq<ReportBooking>, stats: seq<MovieStat>)
  {
    && (forall i, j :: 0 <= i < j < |stats| ==> stats[i].key != stats[j].key)
    && (forall i :: 0 <= i < |stats| ==> stats[i].bookings == KeyCount(bs, stats[i].key) >= 1)
    && (forall k :: 0 <= k < |bs| ==> MovieKey(bs[k]) in KeysOf(stats))
  }

  lemma {:induction false} KeyCountZero(bs: seq<ReportBooking>, key: string)
    requires forall k :: 0 <= k < |bs| ==> MovieKey(bs[k]) != key
    ensures KeyCount(bs, key) == 0
  {
    if bs != [] {
      KeyCountZero(bs[..|bs| - 1], key);
    }
  }

  lemma KeyCountSnoc(init: seq<ReportBooking>, b: ReportBooking, key: string)
    ensures KeyCount(init + [b], key) == KeyCount(init, key) + if MovieKey(b) == key then 1 else 0
  {
    assert (init + [b])[..|init|] == init;
  }

  /** A booking whose movie is already in the tally bumps that entry. */
  lemma CountedKnown(init: seq<ReportBooking>, stats: seq<MovieStat>, b: ReportBooking, i: nat)
    requires TallyOf(init, stats) && i < |stats| && stats[i].key == MovieKey(b)
    ensures TallyOf(init + [b], stats[i := stats[i].(bookings := stats[i].bookings + 1)])
  {
    var bs, next := init + [b], stats[i := stats[i].(bookings := stats[i].bookings + 1)];
    assert KeysOf(next) == KeysOf(stats);
    forall m | 0 <= m < |next| ensures next[m].bookings == KeyCount(bs, next[m].key) >= 1 {
      KeyCountSnoc(init, b, next[m].key);
    }
    forall k | 0 <= k < |bs| ensures MovieKey(bs[k]) in KeysOf(next) {
      if k < |init| {
        assert bs[k] == init[k];
      } else {
        assert KeysOf(next)[i] == MovieKey(b);
      }
    }
  }

  /** A booking of a movie not yet in the tally adds an entry with a count of 1. */
  lemma CountedNew(init: seq<ReportBooking>, stats: seq<MovieStat>, b: ReportBooking)
    requires TallyOf(init, stats) && MovieKey(b) !in KeysOf(stats)
    ensures TallyOf(init + [b], stats + [MovieStat(MovieKey(b), b.movieTitle, 1)])
  {
    var bs, key := init + [b], MovieKey(b);
    var next := stats + [MovieStat(key, b.movieTitle, 1)];
    assert KeysOf(next) == KeysOf(stats) + [key];
    forall k | 0 <= k < |init| ensures MovieKey(init[k]) != key {
    }
    KeyCountZero(init, key);
    forall m | 0 <= m < |next| ensures next[m].bookings == KeyCount(bs, next[m].key) >= 1 {
      KeyCountSnoc(init, b, next[m].key);
    }
    forall k | 0 <= k < |bs| ensures MovieKey(bs[k]) in KeysOf(next) {
      if k < |init| {
        assert bs[k] == init[k];
      }
    }
  }

  /** The tally counts every movie key of the bookings exactly. */
  lemma {:induction false} TallyCorrect(bs: seq<ReportBooking>)
    ensures TallyOf(bs, Tally(bs))
  {
    if bs != [] {
      var init, b := bs[..|bs| - 1], bs[|bs| - 1];
      assert bs == init + [b];
      TallyCorrect(init);
      CountedCorrect(init, Tally(init), b);
    }
  }

  lemma CountedCorrect(init: seq<ReportBooking>, stats: seq<MovieStat>, b: ReportBooking)
    requires TallyOf(init, stats)
    ensures TallyOf(init + [b], Counted(stats, b))
  {
    match KeyIndex(stats, MovieKey(b))
    case Some(i) => CountedKnown(init, stats, b, i);
    case None => CountedNew(init, stats, b);
  }

  /** The tally loop of `getPopularMovies`. */
  method TallyMovies(bs: seq<ReportBooking>) returns (stats: seq<MovieStat>)
    ensures stats == Tally(bs) && TallyOf(bs, stats)
  {
    stats := [];
    var i := 0;
    while i < |bs|
      invariant 0 <= i <= |bs|
      invariant stats == Tally(bs[..i])
    {
      assert bs[..i + 1][..i] == bs[..i];
      stats := Counted(stats, bs[i]);
      i := i + 1;
    }
    assert bs[..|bs|] == bs;
    TallyCorrect(bs);
  }

  predicate SortedByBookings(s: seq<MovieStat>)
  {
    forall i, j :: 0 <= i < j < |s| ==> s[i].bookings >= s[j].bookings
  }

  /** Places `x` before the first entry with a count not above its own. */
  function InsertByBookings(x: MovieStat, s: seq<MovieStat>): (r: seq<MovieStat>)
    ensures multiset(r) == multiset(s) + multiset{x}
    ensures r[0] == x || (s != [] && r[0] == s[0])
  {
    if s == [] || s[0].bookings <= x.bookings then [x] + s
    else
      assert s == [s[0]] + s[1..];
      [s[0]] + InsertByBookings(x, s[1..])
  }

  lemma {:induction false} InsertKeepsSorted(x: MovieStat, s: seq<MovieStat>)
    requires SortedByBookings(s)
    ensures SortedByBookings(InsertByBookings(x, s))
  {
    if s != [] && s[0].bookings > x.bookings {
      InsertKeepsSorted(x, s[1..]);
      var rest := InsertByBookings(x, s[1..]);
      assert rest[0].bookings <= s[0].bookings;
      assert InsertByBookings(x, s) == [s[0]] + rest;
    }
  }

  /** `.sort((a, b) => b.bookings - a.bookings)`: ties keep their tally order. */
  function SortByBookings(s: seq<MovieStat>): (r: seq<MovieStat>)
    ensures SortedByBookings(r)
    ensures multiset(r) == multiset(s)
  {
    if s == [] then []
    else
      assert s == [s[0]] + s[1..];
      InsertKeepsSorted(s[0], SortByBookings(s[1..]));
      InsertByBookings(s[0], SortByBookings(s[1..]))
  }

  /** The three entries kept by `.slice(0, 3)`. */
  function TopStats(bs: seq<ReportBooking>): seq<MovieStat>
  {
    var sorted := SortByBookings(Tally(bs));
    sorted[..Min(PopularLimit, |sorted|)]
  }

  /** A prefix of a list sorted by count holds its largest counts. */
  lemma PrefixOfSorted(sorted: seq<MovieStat>, m: nat)
    requires SortedByBookings(sorted) && m <= |sorted|
    ensures forall s, t :: s in sorted && s !in sorted[..m] && t in sorted[..m] ==> s.bookings <= t.bookings
  {
    forall s, t | s in sorted && s !in sorted[..m] && t in sorted[..m] ensures s.bookings <= t.bookings {
      var j :| 0 <= j < |sorted| && sorted[j] == s;
      var i :| 0 <= i < m && sorted[..m][i] == t;
    }
  }

  /** At most three entries, sorted by count, all taken from the tally. */
  lemma TopStatsShape(bs: seq<ReportBooking>)
    ensures |TopStats(bs)| <= PopularLimit
    ensures SortedByBookings(TopStats(bs))
    ensures multiset(TopStats(bs)) <= multiset(Tally(bs))
  {
    var sorted := SortByBookings(Tally(bs));
    PrefixOfSortedShape(sorted, Min(PopularLimit, |sorted|));
  }

  lemma PrefixOfSortedShape(sorted: seq<MovieStat>, m: nat)
    requires SortedByBookings(sorted) && m <= |sorted|
    ensures SortedByBookings(sorted[..m]) && multiset(sorted[..m]) <= multiset(sorted)
  {
    assert sorted == sorted[..m] + sorted[m..];
    assert multiset(sorted) == multiset(sorted[..m]) + multiset(sorted[m..]);
  }

  /** The kept entries are the most-booked movies: any movie left out has no more bookings
      than any movie shown. */
  lemma TopStatsAreTop(bs: seq<ReportBooking>)
    ensures forall s, t :: s in Tally(bs) && s !in TopStats(bs) && t in TopStats(bs) ==> s.bookings <= t.bookings
  {
    var tally := Tally(bs);
    var sorted := SortByBookings(tally);
    PrefixOfSorted(sorted, Min(PopularLimit, |sorted|));
    forall s | s in tally ensures s in sorted {
      assert s in multiset(tally);
    }
  }

  /** `Math.max(...counts, 1)`. */
  function MaxBookings(s: seq<MovieStat>): (m: nat)
    ensures m >= 1
    ensures forall i :: 0 <= i < |s| ==> s[i].bookings <= m
    ensures m == 1 || exists i :: 0 <= i < |s| && s[i].bookings == m
  {
    if s == [] then 1
    else
      var m := MaxBookings(s[1..]);
      if s[0].bookings > m then s[0].bookings else m
  }

  function WithPercentage(s: MovieStat, maxBookings: nat): PopularMovie
    requires maxBookings >= 1
  {
    PopularMovie(s.title, s.bookings, (s.bookings as real / maxBookings as real) * 100.0)
  }

  lemma PercentageBounds(n: nat, m: nat)
    requires 1 <= m && n <= m
    ensures 0.0 <= (n as real / m as real) * 100.0 <= 100.0
    ensures n == m ==> (n as real / m as real) * 100.0 == 100.0
  {
  }

  /** In a list sorted by count, the largest count is the first one (or 1). */
  lemma MaxOfSorted(s: seq<MovieStat>)
    requires SortedByBookings(s) && s != []
    ensures MaxBookings(s) == if s[0].bookings > 1 then s[0].bookings else 1
  {
  }

  /** `getPopularMovies`: the top three, each with its share of the leader's count. */
  function PopularMovies(bs: seq<ReportBooking>): (r: seq<PopularMovie>)
    ensures |r| == |TopStats(bs)| <= PopularLimit
    ensures forall i :: 0 <= i < |r| ==> r[i] == WithPercentage(TopStats(bs)[i], MaxBookings(TopStats(bs)))
    ensures forall i :: 0 <= i < |r| ==> 0.0 <= r[i].percentage <= 100.0
    ensures r != [] && r[0].bookings > 0 ==> r[0].percentage == 100.0
  {
    var top := TopStats(bs);
    var m := MaxBookings(top);
    var r := seq(|top|, i requires 0 <= i < |top| => WithPercentage(top[i], m));
    assert |r| <= PopularLimit by {
      TopStatsShape(bs);
    }
    assert forall i :: 0 <= i < |r| ==> 0.0 <= r[i].percentage <= 100.0 by {
      forall i | 0 <= i < |r| ensures 0.0 <= r[i].percentage <= 100.0 {
        PercentageBounds(top[i].bookings, m);
      }
    }
    assert r != [] && r[0].bookings > 0 ==> r[0].percentage == 100.0 by {
      if r != [] && r[0].bookings > 0 {
        TopStatsShape(bs);
        MaxOfSorted(top);
        PercentageBounds(top[0].bookings, m);
      }
    }
    r
  }

  /** `getPopularMovies` as the component runs it: the tally loop, then sort, slice and
      percentages. */
  method GetPopularMovies(bs: seq<ReportBooking>) returns (r: seq<PopularMovie>)
    ensures r == PopularMovies(bs)
    ensures |r| <= PopularLimit
  {
    var stats := TallyMovies(bs);
    var sorted := SortByBookings(stats);
    var top := sorted[..Min(PopularLimit, |sorted|)];
    var m := MaxBookings(top);
    r := seq(|top|, i requires 0 <= i < |top| => WithPercentage(top[i], m));
  }

  /** The report screen's state. */
  class BookingsReportComponent {
    var allBookings: seq<ReportBooking>
    var filter: ReportFilter
    var currentPage: int

    ghost predicate Valid()
      reads this
    {
      currentPage >= 1
    }

    constructor ()
      ensures Valid() && allBookings == [] && filter == NoFilter && currentPage == 1
    {
      allBookings, filter, currentPage := [], NoFilter, 1;
    }

    function Filtered(): seq<ReportBooking>
      reads this
    {
      FilteredBookings(allBookings, filter)
    }

    function Paginated(): seq<ReportBooking>
      reads this
    {
      PageOf(Filtered(), currentPage, ItemsPerPage)
    }

    function LastPage(): nat
      reads this
    {
      TotalPages(|Filtered()|, ItemsPerPage)
    }

    /** `loadData`: the bookings on success; the failure message otherwise. */
    method LoadData(reply: Option<seq<ReportBooking>>) returns (alert: Option<string>)
      modifies this
      ensures allBookings == if reply.Some? then reply.value else old(allBookings)
      ensures alert == if reply.Some? then None else Some(LoadFailedMessage)
      ensures filter == old(filter) && currentPage == old(currentPage)
    {
      if reply.Some? {
        allBookings := reply.value;
        alert := None;
      } else {
        alert := Some(LoadFailedMessage);
      }
    }

    /** A filter input bound to the form. */
    method SetFilter(f: ReportFilter)
      modifies this
      ensures filter == f && allBookings == old(allBookings) && currentPage == old(currentPage)
    {
      filter := f;
    }

    method OnFilterChange()
      modifies this
      ensures Valid() && currentPage == 1
      ensures allBookings == old(allBookings) && filter == old(filter)
    {
      currentPage := 1;
    }

    method PreviousPage()
      requires Valid()
      modifies this
      ensures Valid() && currentPage == PreviousPageOf(old(currentPage))
      ensures allBookings == old(allBookings) && filter == old(filter)
    {
      if currentPage > 1 {
        currentPage := currentPage - 1;
      }
    }

    method NextPage()
      requires Valid()
      modifies this
      ensures Valid() && currentPage == NextPageOf(old(currentPage), old(LastPage()))
      ensures allBookings == old(allBookings) && filter == old(filter)
    {
      if currentPage < LastPage() {
        currentPage := currentPage + 1;
      }
    }
  }
}
