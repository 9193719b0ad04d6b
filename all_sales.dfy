/** The sales history screen: the stored sales, sorted newest first when
    loaded, and the time-window filters over them. Sale times are
    milliseconds since the epoch; the calendar day of a time, in the
    device's time zone, is the parameter `dayOf`. */
module AllSales {
  import opened Models
  import opened Seqs
  import opened Storage

  const MillisPerDay: int := 1000 * 3600 * 24

  /** Every sale is at least as recent as the ones after it. */
  predicate NewestFirst(s: seq<Sale>) {
    forall p, q :: 0 <= p < q < |s| ==> s[p].date >= s[q].date
  }

  /** `parsedSales.sort((a, b) => b.date - a.date)`, in place. */
  method SortNewestFirst(a: array<Sale>)
    modifies a
    ensures NewestFirst(a[..])
    ensures multiset(a[..]) == multiset(old(a[..]))
  {
    if a.Length == 0 {
      return;
    }
    for i := 1 to a.Length
      invariant NewestFirst(a[..i])
      invariant multiset(a[..]) == multiset(old(a[..]))
    {
      Insert(a, i);
    }
  }

  /** One insertion step: the sale at `i` moves left past every older
      sale, so the first `i + 1` sales end up newest first. */
  method Insert(a: array<Sale>, i: nat)
    requires i < a.Length
    requires NewestFirst(a[..i])
    modifies a
    ensures NewestFirst(a[..i + 1])
    ensures multiset(a[..]) == multiset(old(a[..]))
  {
    var j := i;
    InsertStart(a[..], i);
    while j > 0 && a[j - 1].date < a[j].date
      invariant 0 <= j <= i < a.Length
      invariant OrderedAround(a[..], i, j)
      invariant multiset(a[..]) == multiset(old(a[..]))
    {
      ghost var before := a[..];
      Swap(a, j - 1, j);
      InsertStep(before, i, j);
      j := j - 1;
    }
    InsertDone(a[..], i, j);
  }

  /** The first `i + 1` sales, the one at `j` aside, are newest first, and
      the one at `j` is no older than any after it. */
  predicate OrderedAround(s: seq<Sale>, i: nat, j: nat)
    requires j <= i < |s|
  {
    && (forall p, q :: 0 <= p < q <= i && p != j && q != j ==> s[p].date >= s[q].date)
    && (forall q :: j < q <= i ==> s[j].date >= s[q].date)
  }

  lemma InsertStart(s: seq<Sale>, i: nat)
    requires i < |s| && NewestFirst(s[..i])
    ensures OrderedAround(s, i, i)
  {
    forall p, q | 0 <= p < q <= i && p != i && q != i ensures s[p].date >= s[q].date {
      assert s[p] == s[..i][p] && s[q] == s[..i][q];
    }
  }

  /** Swapping the sale at `j` with an older one before it moves the gap
      one place left. */
  lemma InsertStep(s: seq<Sale>, i: nat, j: nat)
    requires 0 < j <= i < |s| && OrderedAround(s, i, j)
    requires s[j - 1].date < s[j].date
    ensures OrderedAround(s[j - 1 := s[j]][j := s[j - 1]], i, j - 1)
  {
    var t := s[j - 1 := s[j]][j := s[j - 1]];
    forall p, q | 0 <= p < q <= i && p != j - 1 && q != j - 1 ensures t[p].date >= t[q].date {
      if q == j {
        assert t[q] == s[j - 1];
        if p < j - 1 {
          assert s[p].date >= s[j - 1].date;
        }
      }
    }
  }

  /** Once the sale at `j` is no newer than the one before it, the first
      `i + 1` sales are newest first. */
  lemma InsertDone(s: seq<Sale>, i: nat, j: nat)
    requires j <= i < |s| && OrderedAround(s, i, j)
    requires j == 0 || s[j - 1].date >= s[j].date
    ensures NewestFirst(s[..i + 1])
  {
    forall p, q | 0 <= p < q <= i ensures s[p].date >= s[q].date {
      if q == j && p < j - 1 {
        assert s[p].date >= s[j - 1].date;
      }
    }
  }

  /** Exchanges the sales at `p` and `q`. */
  method Swap(a: array<Sale>, p: nat, q: nat)
    requires p < a.Length && q < a.Length
    modifies a
    ensures a[..] == old(a[..])[p := old(a[q])][q := old(a[p])]
    ensures multiset(a[..]) == multiset(old(a[..]))
  {
    a[p], a[q] := a[q], a[p];
  }

  /** The filter chips of the screen. */
  datatype SalesFilter = Today | SevenDays | ThirtyDays | All

  /** Days from the sale to `now`, as the screen computes them (a fraction,
      negative for a sale dated in the future). */
  function DiffInDays(sale: Sale, now: int): real {
    (now - sale.date) as real / MillisPerDay as real
  }

  /** Whether a sale shows under a filter. */
  function Keeps(filter: SalesFilter, now: int, dayOf: int -> int): Sale -> bool {
    (sale: Sale) =>
      match filter
      case Today => dayOf(sale.date) == dayOf(now)
      case SevenDays => DiffInDays(sale, now) <= 7.0
      case ThirtyDays => DiffInDays(sale, now) <= 30.0
      case All => true
  }

  /** `filterSales` */
  function FilterSales(sales: seq<Sale>, filter: SalesFilter, now: int, dayOf: int -> int): seq<Sale> {
    Filter(sales, Keeps(filter, now, dayOf))
  }

  /** A window of `n` days keeps exactly the sales at most `n` whole days
      of milliseconds old, the bound included; sales dated after `now` are
      kept too. */
  lemma DayWindow(sale: Sale, now: int, n: nat)
    ensures DiffInDays(sale, now) <= n as real <==> now - sale.date <= n * MillisPerDay
  {
  }

  /** "7days" keeps sales at most 604 800 000 ms old and "30days" those at
      most 2 592 000 000 ms old. */
  lemma WindowBounds(sale: Sale, now: int, dayOf: int -> int)
    ensures Keeps(SevenDays, now, dayOf)(sale) <==> now - sale.date <= 604800000
    ensures Keeps(ThirtyDays, now, dayOf)(sale) <==> now - sale.date <= 2592000000
  {
    DayWindow(sale, now, 7);
    DayWindow(sale, now, 30);
  }

  /** Every filter keeps a subsequence of the sales, in their order, and a
      sale is in it exactly when it is a sale the filter keeps. */
  lemma FilterSalesSubsequence(sales: seq<Sale>, filter: SalesFilter, now: int, dayOf: int -> int, x: Sale)
    ensures IsSubsequence(FilterSales(sales, filter, now, dayOf), sales)
    ensures x in FilterSales(sales, filter, now, dayOf) <==> x in sales && Keeps(filter, now, dayOf)(x)
  {
    FilterIsSubsequence(sales, Keeps(filter, now, dayOf));
    FilterMembership(sales, Keeps(filter, now, dayOf), x);
  }

  /** "all" shows every sale. */
  lemma AllShowsEverything(sales: seq<Sale>, now: int, dayOf: int -> int)
    ensures FilterSales(sales, All, now, dayOf) == sales
  {
    FilterAll(sales, Keeps(All, now, dayOf));
  }

  /** The "7days" result is the "30days" result filtered again: every sale
      of the last 7 days is among those of the last 30. */
  lemma SevenWithinThirty(sales: seq<Sale>, now: int, dayOf: int -> int)
    ensures Filter(FilterSales(sales, ThirtyDays, now, dayOf), Keeps(SevenDays, now, dayOf))
         == FilterSales(sales, SevenDays, now, dayOf)
    ensures IsSubsequence(FilterSales(sales, SevenDays, now, dayOf), FilterSales(sales, ThirtyDays, now, dayOf))
  {
    var seven := Keeps(SevenDays, now, dayOf);
    var thirty := Keeps(ThirtyDays, now, dayOf);
    FilterNarrower(sales, seven, thirty);
    FilterIsSubsequence(Filter(sales, thirty), seven);
  }

  /** "today" shows exactly the sales whose calendar day is the day of
      `now`, in their order. */
  lemma TodaySameDay(sales: seq<Sale>, now: int, dayOf: int -> int, x: Sale)
    ensures IsSubsequence(FilterSales(sales, Today, now, dayOf), sales)
    ensures x in FilterSales(sales, Today, now, dayOf) <==> x in sales && dayOf(x.date) == dayOf(now)
  {
    FilterSalesSubsequence(sales, Today, now, dayOf, x);
  }

  /** A sale dated at or after `now` passes both day windows. */
  lemma FutureSalesKept(sale: Sale, now: int, dayOf: int -> int)
    requires sale.date >= now
    ensures Keeps(SevenDays, now, dayOf)(sale) && Keeps(ThirtyDays, now, dayOf)(sale)
  {
    WindowBounds(sale, now, dayOf);
  }

  /** Filtering a newest-first list leaves it newest first. */
  lemma {:induction false} FilterKeepsNewestFirst(sales: seq<Sale>, keep: Sale -> bool)
    requires NewestFirst(sales)
    ensures NewestFirst(Filter(sales, keep))
  {
    if sales != [] {
      var rest := Filter(sales[1..], keep);
      FilterKeepsNewestFirst(sales[1..], keep);
      if keep(sales[0]) {
        forall q | 0 <= q < |rest| ensures sales[0].date >= rest[q].date {
          assert rest[q] in sales[1..];
        }
        assert Filter(sales, keep) == [sales[0]] + rest;
      } else {
        assert Filter(sales, keep) == rest;
      }
    }
  }

  class AllSalesScreen {
    /** `sales` */
    var sales: seq<Sale>
    /** `filter` */
    var filter: SalesFilter

    constructor ()
      ensures sales == [] && filter == All
    {
      sales := [];
      filter := All;
    }

    /** `loadSales`: a stored list is sorted newest first and set; nothing
        stored, or text that does not parse (caught and logged), leaves the
        list as it was. */
    method LoadSales(store: KeyValueStore)
      modifies this`sales
      ensures store.sales.Present? ==>
        NewestFirst(sales) && multiset(sales) == multiset(store.sales.value)
      ensures !store.sales.Present? ==> sales == old(sales)
    {
      if store.sales.Present? {
        var saved := store.sales.value;
        var parsedSales := new Sale[|saved|](i requires 0 <= i < |saved| => saved[i]);
        assert parsedSales[..] == saved;
        SortNewestFirst(parsedSales);
        sales := parsedSales[..];
      }
    }

    /** The sales the screen lists: loaded newest first, they stay newest
        first under every filter. */
    lemma ListedNewestFirst(now: int, dayOf: int -> int)
      requires NewestFirst(sales)
      ensures NewestFirst(FilterSales(sales, filter, now, dayOf))
    {
      FilterKeepsNewestFirst(sales, Keeps(filter, now, dayOf));
    }
  }
}
