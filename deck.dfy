/**
 * The card list and the index arithmetic the album does over it: the ids
 * that "reveal all" records, `findIndex` by id, the circular navigation of the
 * card-detail view, and the date-seeded card of the day ("pact of the day").
 */
module Deck {
  import opened Wrappers
  import Js

  /** One card of the data file. */
  datatype Card = Card(id: int, title: string, description: string)

  /** A calendar date as `Date` reports it: `month` is 0-based, `day` is 1-based. */
  datatype Date = Date(year: int, month: int, day: int)

  /**
   * The script's `currentCardIndex`: a number, possibly -1 when the last
   * lookup failed, or NaN once it was computed modulo an empty list.
   */
  datatype CardIndex = Index(i: int) | NotANumber

  /** The set of ids of a list of cards. */
  function IdSet(cs: seq<Card>): set<int> {
    set c | c in cs :: c.id
  }

  /** No two cards share an id. */
  predicate UniqueIds(cs: seq<Card>) {
    forall i, j :: 0 <= i < j < |cs| ==> cs[i].id != cs[j].id
  }

  /** `cards.map(c => c.id)`. */
  function Ids(cs: seq<Card>): (r: seq<int>)
    ensures |r| == |cs|
    ensures forall k :: 0 <= k < |cs| ==> r[k] == cs[k].id
    ensures forall x :: x in r <==> x in IdSet(cs)
  {
    if cs == [] then []
    else
      assert cs == [cs[0]] + cs[1..];
      [cs[0].id] + Ids(cs[1..])
  }

  /** On a deck without repeated ids, the id list is a set of exactly one id per card. */
  lemma UniqueIdsGiveNoDup(cs: seq<Card>)
    requires UniqueIds(cs)
    ensures Js.NoDup(Ids(cs)) && |Ids(cs)| == |cs|
  {
  }

  /**
   * `cs.findIndex(c => c.id === id)`: the position of the first card with
   * that id, or -1 when there is none.
   */
  function FindIndex(cs: seq<Card>, id: int): (r: int)
    ensures -1 <= r < |cs|
    ensures r >= 0 ==> cs[r].id == id && forall j :: 0 <= j < r ==> cs[j].id != id
    ensures r == -1 <==> forall j :: 0 <= j < |cs| ==> cs[j].id != id
  {
    if cs == [] then -1
    else if cs[0].id == id then 0
    else
      var k := FindIndex(cs[1..], id);
      if k == -1 then -1 else k + 1
  }

  /** The lookup succeeds exactly for the ids of the list. */
  lemma FindIndexFindsMembers(cs: seq<Card>, id: int)
    ensures FindIndex(cs, id) >= 0 <==> id in IdSet(cs)
  {
    if id in IdSet(cs) {
      var c :| c in cs && c.id == id;
      var j :| 0 <= j < |cs| && cs[j] == c;
    }
  }

  /**
   * `(currentCardIndex + direction + visibleCards.length) % visibleCards.length`
   * over `n` visible cards: NaN stays NaN, and an empty list makes NaN.
   */
  function Navigate(i: CardIndex, direction: int, n: nat): (r: CardIndex)
    ensures r.Index? <==> i.Index? && n > 0
    ensures i.Index? && i.i >= -1 && (direction == 1 || direction == -1) && n > 0 ==>
              0 <= r.i < n
  {
    if i.NotANumber? || n == 0 then NotANumber
    else Index(Js.Rem(i.i + direction + n, n))
  }

  /** A residue of a number below the modulus is the number itself. */
  lemma ModBelow(a: int, n: int)
    requires 0 <= a < n
    ensures a % n == a
  {
  }

  /** A number between `n` and `2n` loses exactly one `n`. */
  lemma ModOneLap(a: int, n: int)
    requires n <= a < 2 * n
    ensures a % n == a - n
  {
  }

  /** From the last card, next wraps to the first. */
  lemma NextFromLastIsFirst(n: nat)
    requires n > 0
    ensures Navigate(Index(n - 1), 1, n) == Index(0)
  {
    ModOneLap(n, n);
  }

  /** From the first card, previous wraps to the last. */
  lemma PreviousFromFirstIsLast(n: nat)
    requires n > 0
    ensures Navigate(Index(0), -1, n) == Index(n - 1)
  {
    ModBelow(n - 1, n);
  }

  /** Away from the ends, next and previous move by exactly one. */
  lemma NavigateStepsByOne(i: int, n: nat)
    requires 0 <= i < n
    ensures i + 1 < n ==> Navigate(Index(i), 1, n) == Index(i + 1)
    ensures 0 < i ==> Navigate(Index(i), -1, n) == Index(i - 1)
  {
    if i + 1 < n { ModOneLap(i + 1 + n, n); }
    if 0 < i { ModOneLap(i - 1 + n, n); }
  }

  /** Previous undoes next, and next undoes previous. */
  lemma NavigateInverse(i: int, n: nat)
    requires 0 <= i < n
    ensures Navigate(Navigate(Index(i), 1, n), -1, n) == Index(i)
    ensures Navigate(Navigate(Index(i), -1, n), 1, n) == Index(i)
  {
    if i + 1 < n {
      NavigateStepsByOne(i, n);
      NavigateStepsByOne(i + 1, n);
    } else {
      NextFromLastIsFirst(n);
      PreviousFromFirstIsLast(n);
    }
    if 0 < i {
      NavigateStepsByOne(i, n);
      NavigateStepsByOne(i - 1, n);
    } else {
      PreviousFromFirstIsLast(n);
      NextFromLastIsFirst(n);
    }
  }

  /** `k` presses of the same arrow. */
  function NavigateTimes(i: CardIndex, direction: int, k: nat, n: nat): CardIndex {
    if k == 0 then i else Navigate(NavigateTimes(i, direction, k - 1, n), direction, n)
  }

  /** `a` presses followed by `b` presses are `a + b` presses. */
  lemma {:induction false} NavigateTimesAdd(x: CardIndex, direction: int, a: nat, b: nat, n: nat)
    ensures NavigateTimes(x, direction, a + b, n)
         == NavigateTimes(NavigateTimes(x, direction, a, n), direction, b, n)
  {
    if b > 0 {
      NavigateTimesAdd(x, direction, a, b - 1, n);
    }
  }

  /** Pressing "next" `k` times without reaching the end moves `k` cards on. */
  lemma {:induction false} NavigateTimesForward(i: int, k: nat, n: nat)
    requires 0 <= i && i + k < n
    ensures NavigateTimes(Index(i), 1, k, n) == Index(i + k)
  {
    if k > 0 {
      NavigateTimesForward(i, k - 1, n);
      NavigateStepsByOne(i + k - 1, n);
    }
  }

  /** A full lap of `n` presses of "next" comes back to the starting card. */
  lemma FullLapReturns(i: int, n: nat)
    requires 0 <= i < n
    ensures NavigateTimes(Index(i), 1, n, n) == Index(i)
  {
    var toLast := n - 1 - i;
    NavigateTimesForward(i, toLast, n);
    NextFromLastIsFirst(n);
    assert NavigateTimes(Index(n - 1), 1, 1, n) == Index(0);
    NavigateTimesAdd(Index(i), 1, toLast, 1, n);
    NavigateTimesForward(0, i, n);
    NavigateTimesAdd(Index(i), 1, toLast + 1, i, n);
  }

  /** `year * 1000 + month * 100 + day`, with the 0-based month. */
  function PactSeed(d: Date): (r: int)
    ensures IsCalendarDate(d) ==> d.year * 1000 + 1 <= r <= d.year * 1000 + 1131
  {
    d.year * 1000 + d.month * 100 + d.day
  }

  /** A date `Date` can report: a year from 0 on, a month in 0..11, a day in 1..31. */
  predicate IsCalendarDate(d: Date) {
    d.year >= 0 && 0 <= d.month < 12 && 1 <= d.day <= 31
  }

  /**
   * `cards[seed % cards.length]?.id`: the id of the card the seed picks, or
   * nothing when the list is empty or the remainder is negative.
   */
  function PactOfTheDay(cs: seq<Card>, d: Date): (r: Option<int>)
    ensures |cs| == 0 ==> r.None?
    ensures |cs| > 0 ==> (r.Some? <==> Js.Rem(PactSeed(d), |cs|) >= 0)
    ensures r.Some? ==> r.value in IdSet(cs)
    ensures r.Some? ==> r.value == cs[Js.Rem(PactSeed(d), |cs|)].id
  {
    if |cs| == 0 then None
    else
      var k := Js.Rem(PactSeed(d), |cs|);
      if k >= 0 then Some(cs[k].id) else None
  }

  /** On any calendar date a non-empty deck has a card of the day, at index `seed % n`. */
  lemma PactOfTheDayExists(cs: seq<Card>, d: Date)
    requires IsCalendarDate(d) && |cs| > 0
    ensures 0 <= PactSeed(d) % |cs| < |cs|
    ensures PactOfTheDay(cs, d) == Some(cs[PactSeed(d) % |cs|].id)
  {
    assert PactSeed(d) >= 0 by {
      assert d.year * 1000 >= 0;
      assert d.month * 100 >= 0;
    }
  }

  /** Within one year, different calendar days get different seeds. */
  lemma SeedDistinctWithinYear(d1: Date, d2: Date)
    requires IsCalendarDate(d1) && IsCalendarDate(d2)
    requires d1.year == d2.year && d1 != d2
    ensures PactSeed(d1) != PactSeed(d2)
  {
    if d1.month == d2.month {
      assert d1.day != d2.day;
    } else if d1.month < d2.month {
      assert d1.month * 100 + 100 <= d2.month * 100;
    } else {
      assert d2.month * 100 + 100 <= d1.month * 100;
    }
  }

  /**
   * Across years the seed is not one-to-one: the month term reaches past
   * 1000, so 1 November of one year and 1 January of the next share a seed
   * and so the same card of the day.
   */
  lemma SeedRepeatsAcrossYears(cs: seq<Card>, year: int)
    ensures PactSeed(Date(year, 10, 1)) == PactSeed(Date(year + 1, 0, 1))
    ensures PactOfTheDay(cs, Date(year, 10, 1)) == PactOfTheDay(cs, Date(year + 1, 0, 1))
  {
  }
}
