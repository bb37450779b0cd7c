/** The pricing engine: one rate layer per night, the extra-guest fee, and the
    commission split. Nights are day numbers counted from 1 January 1970. */
module Pricing {
  import opened Wrappers
  import opened Money
  import opened Seasons

  datatype PricingError = InvalidDates | InvalidGuests | NotSatang | NegativeAmount

  datatype NightRule = HolidayRule | SeasonRule | BaseRule

  datatype Config = Config(base: Rates, holiday: Option<int>, includedGuests: int, extraGuestFee: int)

  datatype NightLine = NightLine(date: int, rule: NightRule, weekend: bool, rate: int, season: Option<string>)

  datatype Quote = Quote(nights: seq<NightLine>, subtotal: int, extraGuestFee: int, total: int,
                         commission: int, hostEarnings: int, guests: int)

  /** Days since 1 January 1970, a Thursday; 0 is Sunday (section 21.4.1 of ECMA-262). */
  function WeekDay(date: int): int {
    (date + 4) % 7
  }

  /** Friday and Saturday nights. */
  predicate IsWeekend(date: int) {
    WeekDay(date) == 5 || WeekDay(date) == 6
  }

  /** The nights of a stay, check-out exclusive. */
  function Nights(checkIn: int, checkOut: int): seq<int>
    requires checkIn <= checkOut
    decreases checkOut - checkIn
  {
    if checkIn == checkOut then [] else Nights(checkIn, checkOut - 1) + [checkOut - 1]
  }

  method EachNight(checkIn: int, checkOut: int) returns (r: Result<seq<int>, PricingError>)
    ensures r == if checkOut <= checkIn then Failure(InvalidDates) else Success(Nights(checkIn, checkOut))
    ensures r.Success? ==> |r.value| == checkOut - checkIn
    ensures r.Success? ==> forall i :: 0 <= i < |r.value| ==> r.value[i] == checkIn + i
  {
    if checkOut <= checkIn {
      return Failure(InvalidDates);
    }
    var nights := [];
    var t := checkIn;
    while t < checkOut
      invariant checkIn <= t <= checkOut
      invariant nights == Nights(checkIn, t)
      invariant |nights| == t - checkIn && forall i :: 0 <= i < |nights| ==> nights[i] == checkIn + i
    {
      nights := nights + [t];
      t := t + 1;
    }
    return Success(nights);
  }

  function NonNegSatang(v: int): Result<int, PricingError> {
    if !IsSatang(v) then Failure(NotSatang) else if v < 0 then Failure(NegativeAmount) else Success(v)
  }

  /** The first season in the list that contains the night. */
  function SeasonAt(seasons: seq<Season>, date: int): Option<Season> {
    if seasons == [] then None
    else if Contains(seasons[0].range, date) then Some(seasons[0])
    else SeasonAt(seasons[1..], date)
  }

  function RateOn(rates: Rates, date: int): int {
    if IsWeekend(date) then rates.weekend else rates.weekday
  }

  /** Holiday before season before base; the eve of a holiday counts as one. */
  function PriceNight(config: Config, seasons: seq<Season>, holidays: set<int>,
                      date: int): Result<NightLine, PricingError> {
    if config.holiday.Some? && (date in holidays || date + 1 in holidays) then
      var rate :- NonNegSatang(config.holiday.value);
      Success(NightLine(date, HolidayRule, IsWeekend(date), rate, None))
    else
      var season := SeasonAt(seasons, date);
      if season.Some? then
        var rate :- NonNegSatang(RateOn(season.value.rates, date));
        Success(NightLine(date, SeasonRule, IsWeekend(date), rate, Some(season.value.nameTh)))
      else
        var rate :- NonNegSatang(RateOn(config.base, date));
        Success(NightLine(date, BaseRule, IsWeekend(date), rate, None))
  }

  function PriceNights(config: Config, seasons: seq<Season>, holidays: set<int>, dates: seq<int>)
    : (r: Result<seq<NightLine>, PricingError>)
    ensures r.Success? ==> |r.value| == |dates|
  {
    if dates == [] then Success([])
    else
      var lines :- PriceNights(config, seasons, holidays, dates[..|dates| - 1]);
      var line :- PriceNight(config, seasons, holidays, dates[|dates| - 1]);
      Success(lines + [line])
  }

  function RatesOf(lines: seq<NightLine>): seq<int> {
    seq(|lines|, i requires 0 <= i < |lines| => lines[i].rate)
  }

  /** A tenth, halves rounded up. */
  function Commission(total: int): int {
    (total + 5) / 10
  }

  function ExtraGuests(guests: int, included: int): nat {
    if guests > included then guests - included else 0
  }

  function BuildQuote(config: Config, seasons: seq<Season>, holidays: set<int>, checkIn: int, checkOut: int,
                      guests: int)
    : Result<Quote, PricingError>
  {
    if guests < 1 then Failure(InvalidGuests)
    else if checkOut <= checkIn then Failure(InvalidDates)
    else
      var lines :- PriceNights(config, seasons, holidays, Nights(checkIn, checkOut));
      var fee :- NonNegSatang(config.extraGuestFee);
      var extra := ExtraGuests(guests, config.includedGuests) * fee * |lines|;
      if !IsSatang(extra) then Failure(NotSatang)
      else
        var subtotal := SumSatang(RatesOf(lines));
        var total := subtotal + extra;
        Success(Quote(lines, subtotal, extra, total, Commission(total), total - Commission(total), guests))
  }

  // ---- One layer per night ----

  function WeekendNight(date: int): nat {
    if IsWeekend(date) then 1 else 0
  }

  /** Any seven nights in a row have two weekend nights, and 2 and 3 January 1970, a
      Friday and a Saturday, were such nights. */
  lemma TwoWeekendNightsAWeek(d: int)
    ensures WeekendNight(d) + WeekendNight(d + 1) + WeekendNight(d + 2) + WeekendNight(d + 3)
            + WeekendNight(d + 4) + WeekendNight(d + 5) + WeekendNight(d + 6) == 2
    ensures IsWeekend(1) && IsWeekend(2)
  {
  }

  /** The season at `k` is the first in the list that contains the night. */
  predicate FirstSeason(seasons: seq<Season>, date: int, k: nat) {
    k < |seasons| && Contains(seasons[k].range, date) && forall j :: 0 <= j < k ==> !Contains(seasons[j].range, date)
  }

  predicate Festive(config: Config, holidays: set<int>, date: int) {
    config.holiday.Some? && (date in holidays || date + 1 in holidays)
  }

  /** Which layer priced a night, and at which rate: the holiday rate on a holiday or its
      eve, otherwise that of the first season containing the night, otherwise the base
      rate; of the two rates of a season or the base, the weekend's on Friday and Saturday
      nights. */
  lemma ExactlyOneLayer(config: Config, seasons: seq<Season>, holidays: set<int>, date: int)
    requires PriceNight(config, seasons, holidays, date).Success?
    ensures var line := PriceNight(config, seasons, holidays, date).value;
            && (line.rule.HolidayRule? <==> Festive(config, holidays, date))
            && (line.rule.SeasonRule?
                <==> !Festive(config, holidays, date) && exists k: nat :: FirstSeason(seasons, date, k))
            && (line.rule.HolidayRule? ==> line.rate == config.holiday.value && line.season == None)
            && (line.rule.SeasonRule? ==>
                  exists k: nat :: FirstSeason(seasons, date, k) && line.season == Some(seasons[k].nameTh)
                    && line.rate == (if line.weekend then seasons[k].rates.weekend else seasons[k].rates.weekday))
            && (line.rule.BaseRule? ==>
                  line.season == None && line.rate == if line.weekend then config.base.weekend else config.base.weekday)
            && line.date == date && (line.weekend <==> (date + 4) % 7 == 5 || (date + 4) % 7 == 6)
  {
    var k := SeasonAtFinds(seasons, date);
  }

  /** A rate is accepted if it is a non-negative safe integer. */
  predicate GoodRate(rate: int) {
    0 <= rate <= 9007199254740991
  }

  /** The rate a night would be priced at. */
  ghost predicate RatedAt(config: Config, seasons: seq<Season>, holidays: set<int>, date: int, rate: int) {
    if Festive(config, holidays, date) then rate == config.holiday.value
    else if exists k: nat :: FirstSeason(seasons, date, k) then
      exists k: nat :: FirstSeason(seasons, date, k)
        && rate == if IsWeekend(date) then seasons[k].rates.weekend else seasons[k].rates.weekday
    else rate == if IsWeekend(date) then config.base.weekend else config.base.weekday
  }

  /** A night is priced exactly if its rate is a non-negative safe integer. */
  lemma NightAcceptedIff(config: Config, seasons: seq<Season>, holidays: set<int>, date: int) returns (rate: int)
    ensures RatedAt(config, seasons, holidays, date, rate)
    ensures var night := PriceNight(config, seasons, holidays, date);
            && (night.Success? <==> GoodRate(rate))
            && (night.Success? ==> night.value.rate == rate)
            && (night.Failure? ==> night.error == if -9007199254740991 <= rate < 0 then NegativeAmount else NotSatang)
  {
    var k := SeasonAtFinds(seasons, date);
    rate := if Festive(config, holidays, date) then config.holiday.value
            else if SeasonAt(seasons, date).Some? then RateOn(seasons[k].rates, date)
            else RateOn(config.base, date);
  }

  // ---- The commission ----

  /** The platform's tenth is within half a satang of exact, and with the host's part
      makes up the total. */
  lemma CommissionIsATenth(total: int)
    ensures -4 <= 10 * Commission(total) - total <= 5
    ensures 0 <= total ==> 0 <= Commission(total) <= total
  {
  }

  lemma {:induction false} RatesAreNonNegative(config: Config, seasons: seq<Season>, holidays: set<int>,
                                               dates: seq<int>)
    requires PriceNights(config, seasons, holidays, dates).Success?
    ensures var lines := PriceNights(config, seasons, holidays, dates).value;
            && 0 <= SumSatang(RatesOf(lines))
            && forall i :: 0 <= i < |lines| ==> 0 <= lines[i].rate && lines[i].date == dates[i]
  {
    if dates != [] {
      var front := dates[..|dates| - 1];
      RatesAreNonNegative(config, seasons, holidays, front);
      var lines := PriceNights(config, seasons, holidays, dates).value;
      var before := PriceNights(config, seasons, holidays, front).value;
      assert RatesOf(lines)[..|lines| - 1] == RatesOf(before);
    }
  }

  lemma ProductIsNonNegative(a: int, b: int, c: int)
    requires 0 <= a && 0 <= b && 0 <= c
    ensures 0 <= a * b * c
  {
  }

  /** Commission and host earnings of any quote: non-negative, and together the total. */
  lemma QuoteSplits(config: Config, seasons: seq<Season>, holidays: set<int>, checkIn: int, checkOut: int, guests: int)
    requires BuildQuote(config, seasons, holidays, checkIn, checkOut, guests).Success?
    ensures var q := BuildQuote(config, seasons, holidays, checkIn, checkOut, guests).value;
            && q.commission + q.hostEarnings == q.total == q.subtotal + q.extraGuestFee
            && 0 <= q.commission && 0 <= q.hostEarnings && 0 <= q.subtotal && 0 <= q.extraGuestFee
            && -4 <= 10 * q.commission - q.total <= 5
            && |q.nights| == checkOut - checkIn
  {
    var dates := Nights(checkIn, checkOut);
    NightsLength(checkIn, checkOut);
    RatesAreNonNegative(config, seasons, holidays, dates);
    ProductIsNonNegative(ExtraGuests(guests, config.includedGuests), config.extraGuestFee, |dates|);
  }

  lemma {:induction false} NightsLength(checkIn: int, checkOut: int)
    requires checkIn <= checkOut
    ensures |Nights(checkIn, checkOut)| == checkOut - checkIn
    ensures forall i :: 0 <= i < checkOut - checkIn ==> Nights(checkIn, checkOut)[i] == checkIn + i
    decreases checkOut - checkIn
  {
    if checkIn < checkOut {
      NightsLength(checkIn, checkOut - 1);
    }
  }

  // ---- A quote and its lines ----

  lemma {:induction false} PricesAreNights(config: Config, seasons: seq<Season>, holidays: set<int>, dates: seq<int>)
    ensures PriceNights(config, seasons, holidays, dates).Success?
            <==> forall i :: 0 <= i < |dates| ==> PriceNight(config, seasons, holidays, dates[i]).Success?
    ensures PriceNights(config, seasons, holidays, dates).Success? ==>
              forall i :: 0 <= i < |dates| ==>
                PriceNight(config, seasons, holidays, dates[i])
                == Success(PriceNights(config, seasons, holidays, dates).value[i])
  {
    if dates != [] {
      PricesAreNights(config, seasons, holidays, dates[..|dates| - 1]);
    }
  }

  lemma AllNightsPriced(config: Config, seasons: seq<Season>, holidays: set<int>, checkIn: int, checkOut: int)
    requires checkIn <= checkOut
    ensures PriceNights(config, seasons, holidays, Nights(checkIn, checkOut)).Success? <==>
            forall date :: checkIn <= date < checkOut ==> PriceNight(config, seasons, holidays, date).Success?
  {
    var nights := Nights(checkIn, checkOut);
    NightsLength(checkIn, checkOut);
    PricesAreNights(config, seasons, holidays, nights);
    if forall i :: 0 <= i < |nights| ==> PriceNight(config, seasons, holidays, nights[i]).Success? {
      forall date | checkIn <= date < checkOut
        ensures PriceNight(config, seasons, holidays, date).Success?
      {
        assert nights[date - checkIn] == date;
      }
    }
  }

  lemma LinesPerNight(config: Config, seasons: seq<Season>, holidays: set<int>, checkIn: int, checkOut: int)
    requires checkIn <= checkOut && PriceNights(config, seasons, holidays, Nights(checkIn, checkOut)).Success?
    ensures |PriceNights(config, seasons, holidays, Nights(checkIn, checkOut)).value| == checkOut - checkIn
  {
    NightsLength(checkIn, checkOut);
  }

  /** A quote is made exactly for at least one guest, at least one night, nights that all
      have a good rate, a good fee per extra guest, and a safe sum of those fees. */
  lemma QuoteAcceptedIff(config: Config, seasons: seq<Season>, holidays: set<int>, checkIn: int, checkOut: int,
                         guests: int)
    ensures var quote := BuildQuote(config, seasons, holidays, checkIn, checkOut, guests);
            var extra := if guests <= config.includedGuests then 0 else guests - config.includedGuests;
            && (quote.Success? <==>
                  && 1 <= guests && checkIn < checkOut
                  && (forall date :: checkIn <= date < checkOut ==>
                        PriceNight(config, seasons, holidays, date).Success?)
                  && GoodRate(config.extraGuestFee) && IsSatang(extra * config.extraGuestFee * (checkOut - checkIn)))
            && (guests < 1 ==> quote == Failure(InvalidGuests))
            && (1 <= guests && checkOut <= checkIn ==> quote == Failure(InvalidDates))
  {
    if checkIn < checkOut {
      AllNightsPriced(config, seasons, holidays, checkIn, checkOut);
      if PriceNights(config, seasons, holidays, Nights(checkIn, checkOut)).Success? {
        LinesPerNight(config, seasons, holidays, checkIn, checkOut);
      }
    }
  }

  /** What a quote says, read off its own lines: one priced line per night in order, the
      subtotal their sum, and the fee for each extra guest and night. */
  lemma QuoteFromItsLines(config: Config, seasons: seq<Season>, holidays: set<int>, checkIn: int, checkOut: int,
                          guests: int)
    requires BuildQuote(config, seasons, holidays, checkIn, checkOut, guests).Success?
    ensures var q := BuildQuote(config, seasons, holidays, checkIn, checkOut, guests).value;
            && |q.nights| == checkOut - checkIn && q.guests == guests
            && (forall i :: 0 <= i < |q.nights| ==>
                  PriceNight(config, seasons, holidays, checkIn + i) == Success(q.nights[i]))
            && q.subtotal == SumSatang(seq(|q.nights|, i requires 0 <= i < |q.nights| => q.nights[i].rate))
            && q.extraGuestFee
               == (if guests <= config.includedGuests then 0 else guests - config.includedGuests)
                  * config.extraGuestFee * |q.nights|
            && q.total == q.subtotal + q.extraGuestFee
  {
    NightsLength(checkIn, checkOut);
    PricesAreNights(config, seasons, holidays, Nights(checkIn, checkOut));
    var q := BuildQuote(config, seasons, holidays, checkIn, checkOut, guests).value;
    assert RatesOf(q.nights) == seq(|q.nights|, i requires 0 <= i < |q.nights| => q.nights[i].rate);
  }

  // ---- Splitting a stay ----

  lemma {:induction false} NightsConcat(checkIn: int, mid: int, checkOut: int)
    requires checkIn <= mid <= checkOut
    ensures Nights(checkIn, checkOut) == Nights(checkIn, mid) + Nights(mid, checkOut)
    decreases checkOut - mid
  {
    if mid < checkOut {
      NightsConcat(checkIn, mid, checkOut - 1);
    }
  }

  lemma {:induction false} PriceConcat(config: Config, seasons: seq<Season>, holidays: set<int>, a: seq<int>,
                                       b: seq<int>)
    requires PriceNights(config, seasons, holidays, a + b).Success?
    ensures PriceNights(config, seasons, holidays, a).Success? && PriceNights(config, seasons, holidays, b).Success?
    ensures PriceNights(config, seasons, holidays, a + b).value
            == PriceNights(config, seasons, holidays, a).value + PriceNights(config, seasons, holidays, b).value
  {
    if b == [] {
      assert a + b == a;
    } else {
      var front := b[..|b| - 1];
      assert (a + b)[..|a + b| - 1] == a + front;
      PriceConcat(config, seasons, holidays, a, front);
    }
  }

  lemma FeeSplits(extra: nat, fee: int, m: nat, n: nat)
    requires 0 <= fee && IsSatang(extra * fee * (m + n))
    ensures extra * fee * (m + n) == extra * fee * m + extra * fee * n
    ensures IsSatang(extra * fee * m) && IsSatang(extra * fee * n)
  {
  }

  /** A quote for a stay is the quotes of its two halves: the night lines concatenate,
      subtotal, fee and total add exactly, and the commission differs by one satang at
      most. */
  lemma QuoteOfSplitStay(config: Config, seasons: seq<Season>, holidays: set<int>, checkIn: int, mid: int,
                         checkOut: int, guests: int)
    requires checkIn < mid < checkOut
    requires BuildQuote(config, seasons, holidays, checkIn, checkOut, guests).Success?
    ensures BuildQuote(config, seasons, holidays, checkIn, mid, guests).Success?
    ensures BuildQuote(config, seasons, holidays, mid, checkOut, guests).Success?
    ensures var whole := BuildQuote(config, seasons, holidays, checkIn, checkOut, guests).value;
            var first := BuildQuote(config, seasons, holidays, checkIn, mid, guests).value;
            var second := BuildQuote(config, seasons, holidays, mid, checkOut, guests).value;
            && whole.nights == first.nights + second.nights
            && whole.subtotal == first.subtotal + second.subtotal
            && whole.extraGuestFee == first.extraGuestFee + second.extraGuestFee
            && whole.total == first.total + second.total
            && -1 <= whole.commission - (first.commission + second.commission) <= 1
  {
    var a, b := Nights(checkIn, mid), Nights(mid, checkOut);
    NightsConcat(checkIn, mid, checkOut);
    PriceConcat(config, seasons, holidays, a, b);
    var first := PriceNights(config, seasons, holidays, a).value;
    var second := PriceNights(config, seasons, holidays, b).value;
    assert RatesOf(first + second) == RatesOf(first) + RatesOf(second);
    SumOfConcat(RatesOf(first), RatesOf(second));
    FeeSplits(ExtraGuests(guests, config.includedGuests), config.extraGuestFee, |a|, |b|);
  }

  // ---- The order of the seasons ----

  lemma {:induction false} SeasonAtFinds(seasons: seq<Season>, date: int) returns (k: nat)
    ensures SeasonAt(seasons, date).None? ==> forall i :: 0 <= i < |seasons| ==> !Contains(seasons[i].range, date)
    ensures SeasonAt(seasons, date).Some?
            ==> FirstSeason(seasons, date, k) && SeasonAt(seasons, date).value == seasons[k]
  {
    k := 0;
    if seasons != [] && !Contains(seasons[0].range, date) {
      var l := SeasonAtFinds(seasons[1..], date);
      k := l + 1;
    }
  }

  lemma SameMembers(a: seq<Season>, b: seq<Season>, i: nat) returns (j: nat)
    requires multiset(a) == multiset(b) && i < |a|
    ensures j < |b| && b[j] == a[i]
  {
    assert a[i] in multiset(b);
    j :| 0 <= j < |b| && b[j] == a[i];
  }

  /** With at most one season per night, which season a night is in does not depend on
      the order of the list. */
  lemma SeasonAtIgnoresOrder(seasons: seq<Season>, shuffled: seq<Season>, date: int)
    requires OneSeasonPerNight(seasons) && multiset(seasons) == multiset(shuffled)
    ensures SeasonAt(shuffled, date) == SeasonAt(seasons, date)
  {
    var k := SeasonAtFinds(seasons, date);
    var l := SeasonAtFinds(shuffled, date);
    if SeasonAt(shuffled, date).Some? {
      var i := SameMembers(shuffled, seasons, l);
      assert Contains(seasons[i].range, date);
    } else if SeasonAt(seasons, date).Some? {
      var j := SameMembers(seasons, shuffled, k);
    }
  }

  lemma {:induction false} PricesIgnoreOrder(config: Config, seasons: seq<Season>, shuffled: seq<Season>,
                                             holidays: set<int>, dates: seq<int>)
    requires OneSeasonPerNight(seasons) && multiset(seasons) == multiset(shuffled)
    ensures PriceNights(config, shuffled, holidays, dates) == PriceNights(config, seasons, holidays, dates)
  {
    if dates != [] {
      PricesIgnoreOrder(config, seasons, shuffled, holidays, dates[..|dates| - 1]);
      SeasonAtIgnoresOrder(seasons, shuffled, dates[|dates| - 1]);
    }
  }

  /** If the overlap search finds nothing, the whole quote is the same for every order
      of the seasons. */
  lemma QuoteIgnoresSeasonOrder(config: Config, seasons: seq<Season>, shuffled: seq<Season>, holidays: set<int>,
                                checkIn: int, checkOut: int, guests: int)
    requires Disjoint(seasons) && multiset(seasons) == multiset(shuffled)
    ensures BuildQuote(config, shuffled, holidays, checkIn, checkOut, guests)
            == BuildQuote(config, seasons, holidays, checkIn, checkOut, guests)
  {
    DisjointMeansOneSeason(seasons);
    if checkIn < checkOut {
      PricesIgnoreOrder(config, seasons, shuffled, holidays, Nights(checkIn, checkOut));
    }
  }
}
