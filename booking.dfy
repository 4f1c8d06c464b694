/**
 * The booking and enquiry form: villa configuration, the night count of a
 * selected date range, the price breakdown, the capacity and minimum-stay
 * rules, the enquiry message, and the form's event handlers.
 *
 * Calendar dates are day numbers; the calendar-day difference of two dates is
 * their difference. Money is exact `real` euros.
 */
module Booking {
  import opened Common

  type Day = int

  /* ---------- Configuration ---------- */

  datatype VillaKey = ALYA | ZEHRA

  datatype VillaInfo = VillaInfo(name: string, nightlyEUR: nat, sleeps: nat)

  function Villas(k: VillaKey): (info: VillaInfo)
    ensures info.nightlyEUR > 0 && info.sleeps > 0
    ensures k == ALYA ==> info.name == "ALYA" && info.nightlyEUR == 700 && info.sleeps == 8
    ensures k == ZEHRA ==> info.name == "ZEHRA" && info.nightlyEUR == 550 && info.sleeps == 6
  {
    match k
    case ALYA => VillaInfo("ALYA", 700, 8)
    case ZEHRA => VillaInfo("ZEHRA", 550, 6)
  }

  const CLEANING_FEE: real := 150.0
  const SERVICE_FEE_PCT: real := 0.05
  /** Per extra guest older than two years, per night. */
  const EXTRA_GUEST_FEE_EUR: nat := 200
  const INCLUDED_GUESTS: nat := 2
  const MIN_NIGHTS: nat := 3
  /** The refundable deposit, disclosed apart from the total. */
  const DEPOSIT_EUR: real := 500.0

  /* ---------- Dates ---------- */

  /** The date picker's range: either endpoint may be missing. */
  datatype DateRange = DateRange(from: Option<Day>, to: Option<Day>)

  predicate Complete(range: Option<DateRange>) {
    range.Some? && range.value.from.Some? && range.value.to.Some?
  }

  function From(range: Option<DateRange>): Option<Day> {
    if range.Some? then range.value.from else None
  }

  function To(range: Option<DateRange>): Option<Day> {
    if range.Some? then range.value.to else None
  }

  /** Nights of a stay: 0 unless both endpoints are set, and never negative. */
  function NightsOf(range: Option<DateRange>): (n: nat)
    ensures !Complete(range) ==> n == 0
    ensures Complete(range) ==> n >= range.value.to.value - range.value.from.value
    ensures n > 0 ==> Complete(range) && n == range.value.to.value - range.value.from.value
  {
    if !Complete(range) then 0
    else Max0(range.value.to.value - range.value.from.value)
  }

  /**
   * The range the calendar's select handler stores: a complete range whose
   * check-out lies before its check-in has its endpoints swapped.
   */
  function OnSelect(r: Option<DateRange>): (s: Option<DateRange>)
    ensures Complete(s) <==> Complete(r)
    ensures Complete(s) ==> s.value.from.value <= s.value.to.value
    ensures Complete(r) ==>
      (s.value.from.value == r.value.from.value && s.value.to.value == r.value.to.value) ||
      (s.value.from.value == r.value.to.value && s.value.to.value == r.value.from.value)
    ensures !Complete(r) ==> s == r
  {
    if Complete(r) && r.value.to.value < r.value.from.value then
      Some(DateRange(r.value.to, r.value.from))
    else
      r
  }

  /** Selecting two days in either order books the nights between them. */
  lemma SelectedNightsAreDistance(a: Day, b: Day)
    ensures NightsOf(OnSelect(Some(DateRange(Some(a), Some(b))))) == if a <= b then b - a else a - b
  {
  }

  /* ---------- Party, capacity and minimum stay ---------- */

  datatype Party = Party(adults: nat, childrenOver2: nat, infants02: nat)

  /** Infants aged 0 to 2 are left out of every count that matters. */
  function PartySizeExclInfants(p: Party): nat {
    p.adults + p.childrenOver2
  }

  function ExtraGuests(p: Party): (e: nat)
    ensures e + INCLUDED_GUESTS >= PartySizeExclInfants(p)
    ensures e > 0 ==> e + INCLUDED_GUESTS == PartySizeExclInfants(p)
    ensures PartySizeExclInfants(p) <= INCLUDED_GUESTS ==> e == 0
  {
    Max0(PartySizeExclInfants(p) - INCLUDED_GUESTS)
  }

  /** More guests than beds; with at least the two included guests' beds, exactly when the chargeable extras outnumber the extra beds. */
  predicate OverCapacity(p: Party, info: VillaInfo): (over: bool)
    ensures info.sleeps >= INCLUDED_GUESTS ==> (over <==> ExtraGuests(p) > info.sleeps - INCLUDED_GUESTS)
  {
    PartySizeExclInfants(p) > info.sleeps
  }

  /** A stay that has nights but fewer than the minimum: one or two nights. */
  predicate UnderMinNights(n: nat): (under: bool)
    ensures under <==> n == 1 || n == 2
  {
    n > 0 && n < MIN_NIGHTS
  }

  /** Whether the enquiry buttons are enabled. */
  function CanSubmit(n: nat, p: Party, info: VillaInfo): (ok: bool)
    ensures ok <==> n >= MIN_NIGHTS && PartySizeExclInfants(p) <= info.sleeps
    ensures ok ==> !UnderMinNights(n) && !OverCapacity(p, info) && n > 0
  {
    n >= MIN_NIGHTS && !OverCapacity(p, info)
  }

  /* ---------- Price ---------- */

  datatype Quote = Quote(base: real, extraGuestFee: real, cleaning: real,
                         service: real, total: real, deposit: real)

  /** The price breakdown for `n` nights at `nightlyEUR` with `extraGuests` chargeable extra guests. */
  function Price(n: nat, nightlyEUR: nat, extraGuests: nat): (q: Quote)
    ensures n == 0 ==>
              q.base == 0.0 && q.extraGuestFee == 0.0 && q.cleaning == 0.0 && q.service == 0.0 && q.total == 0.0
    ensures q.base == (n * nightlyEUR) as real
    ensures n > 0 ==>
              q.extraGuestFee == (n * EXTRA_GUEST_FEE_EUR * extraGuests) as real && q.cleaning == CLEANING_FEE
    ensures q.service == SERVICE_FEE_PCT * (q.base + q.extraGuestFee + q.cleaning)
    ensures q.total == (1.0 + SERVICE_FEE_PCT) * (q.base + q.extraGuestFee + q.cleaning)
    ensures n > 0 ==> q.total == 1.05 * ((n * (nightlyEUR + EXTRA_GUEST_FEE_EUR * extraGuests)) as real + CLEANING_FEE)
    ensures q.deposit == DEPOSIT_EUR
  {
    var base := (n * nightlyEUR) as real;
    var extraGuestFee := if n > 0 then (n * EXTRA_GUEST_FEE_EUR * extraGuests) as real else 0.0;
    var cleaning := if n > 0 then CLEANING_FEE else 0.0;
    var service := (base + cleaning + extraGuestFee) * SERVICE_FEE_PCT;
    Quote(base, extraGuestFee, cleaning, service, base + extraGuestFee + cleaning + service, 500.0)
  }

  /** Five nights in ALYA for three adults and one child over two. */
  lemma PriceExample()
    ensures var q := Price(5, Villas(ALYA).nightlyEUR, ExtraGuests(Party(3, 1, 0)));
      q.base == 3500.0 && q.extraGuestFee == 2000.0 && q.cleaning == 150.0
      && q.service == 282.5 && q.total == 5932.5 && q.deposit == 500.0
    ensures CanSubmit(5, Party(3, 1, 0), Villas(ALYA))
  {
  }

  /** A longer stay never costs less. */
  lemma {:induction false} TotalMonotoneInNights(n: nat, m: nat, nightlyEUR: nat, extraGuests: nat)
    requires n <= m
    ensures Price(n, nightlyEUR, extraGuests).total <= Price(m, nightlyEUR, extraGuests).total
  {
    var k := nightlyEUR + EXTRA_GUEST_FEE_EUR * extraGuests;
    if n > 0 {
      assert n * k <= m * k by { MulMonotone(n, m, k); }
    }
  }

  lemma MulMonotone(n: nat, m: nat, k: nat)
    requires n <= m
    ensures n * k <= m * k
  {
    assert m * k == n * k + (m - n) * k;
  }

  /* ---------- The form ---------- */

  datatype Form = Form(villa: VillaKey, range: Option<DateRange>, party: Party, note: string)

  const InitialForm: Form := Form(ALYA, None, Party(2, 0, 0), "")

  function Nights(f: Form): nat {
    NightsOf(f.range)
  }

  function QuoteOf(f: Form): Quote {
    Price(Nights(f), Villas(f.villa).nightlyEUR, ExtraGuests(f.party))
  }

  function FormCanSubmit(f: Form): bool {
    CanSubmit(Nights(f), f.party, Villas(f.villa))
  }

  /** What every handler keeps: at least one adult and a stored range in order. */
  predicate Valid(f: Form) {
    f.party.adults >= 1 &&
    (Complete(f.range) ==> f.range.value.from.value <= f.range.value.to.value)
  }

  /** A number field: its entry when not blank, otherwise the default, and never below `lo`. */
  function ClampCount(input: Option<int>, lo: nat): (c: nat)
    ensures c >= lo
    ensures input.None? ==> c == lo
    ensures input.Some? && input.value >= lo ==> c == input.value
    ensures input.Some? && input.value < lo ==> c == lo
  {
    var v := input.GetOr(lo);
    if v > lo then v else lo
  }

  datatype Event =
    | SelectRange(r: Option<DateRange>)
    | SwitchVilla(k: VillaKey)
    | ResetDates
    | SetAdults(input: Option<int>)
    | SetChildrenOver2(input: Option<int>)
    | SetInfants02(input: Option<int>)
    | SetNote(text: string)

  /** The new form after one handler runs. */
  function Step(f: Form, e: Event): (g: Form)
    ensures Valid(f) ==> Valid(g)
    ensures e.SelectRange? ==> g == f.(range := OnSelect(e.r))
    ensures e.SwitchVilla? ==> g == f.(villa := e.k, range := None)
    ensures e.ResetDates? ==> g == f.(range := None)
    ensures e.SetAdults? ==> g == f.(party := f.party.(adults := ClampCount(e.input, 1)))
    ensures e.SetChildrenOver2? ==> g == f.(party := f.party.(childrenOver2 := ClampCount(e.input, 0)))
    ensures e.SetInfants02? ==> g == f.(party := f.party.(infants02 := ClampCount(e.input, 0)))
    ensures e.SetNote? ==> g == f.(note := e.text)
    ensures e.SetInfants02? ==> QuoteOf(g) == QuoteOf(f) && FormCanSubmit(g) == FormCanSubmit(f)
    ensures e.SetNote? ==> QuoteOf(g) == QuoteOf(f) && FormCanSubmit(g) == FormCanSubmit(f)
  {
    match e
    case SelectRange(r) => f.(range := OnSelect(r))
    case SwitchVilla(k) => f.(villa := k, range := None)
    case ResetDates => f.(range := None)
    case SetAdults(input) => f.(party := f.party.(adults := ClampCount(input, 1)))
    case SetChildrenOver2(input) => f.(party := f.party.(childrenOver2 := ClampCount(input, 0)))
    case SetInfants02(input) => f.(party := f.party.(infants02 := ClampCount(input, 0)))
    case SetNote(text) => f.(note := text)
  }

  function Run(f: Form, es: seq<Event>): Form
    decreases |es|
  {
    if es == [] then f else Run(Step(f, es[0]), es[1..])
  }

  /** The form the page opens with is valid. */
  lemma InitialFormValid()
    ensures Valid(InitialForm)
    ensures Nights(InitialForm) == 0 && !FormCanSubmit(InitialForm)
  {
  }

  /** Every form the page can reach keeps its invariant: see `InitialFormValid` for the start. */
  lemma {:induction false} RunPreservesValid(f: Form, es: seq<Event>)
    requires Valid(f)
    ensures Valid(Run(f, es))
    decreases |es|
  {
    if es != [] {
      RunPreservesValid(Step(f, es[0]), es[1..]);
    }
  }

  /** In a reachable form the night count is exactly the stored range's length. */
  lemma ValidNights(f: Form)
    requires Valid(f) && Complete(f.range)
    ensures Nights(f) == f.range.value.to.value - f.range.value.from.value
  {
  }

  /** Infants change neither the price nor whether the enquiry may be sent. */
  lemma InfantsNeverCount(f: Form, infants: nat)
    ensures var g := f.(party := f.party.(infants02 := infants));
      QuoteOf(g) == QuoteOf(f) && FormCanSubmit(g) == FormCanSubmit(f)
  {
  }

  /* ---------- Enquiry message ---------- */

  /** The lines of the enquiry text, as abstract values rather than formatted strings. */
  datatype Line =
    | Greeting
    | VillaLine(name: string)
    | CheckInLine(day: Option<Day>)
    | CheckOutLine(day: Option<Day>)
    | GuestsLine(adults: nat, childrenOver2: nat, infants02: nat)
    | NightsLine(nights: nat)
    | ExtraGuestsLine(included: nat, extra: nat, feePerNight: nat)
    | EstimateLine(total: real, excludedDeposit: real)
    | NoteLine(note: string)
    | BlankLine

  function EnquiryLines(f: Form): (lines: seq<Line>)
    ensures |lines| == 9
    ensures lines[0] == Greeting && lines[1] == VillaLine(Villas(f.villa).name)
    ensures lines[2] == CheckInLine(From(f.range)) && lines[3] == CheckOutLine(To(f.range))
    ensures lines[4] == GuestsLine(f.party.adults, f.party.childrenOver2, f.party.infants02)
    ensures lines[5] == NightsLine(Nights(f))
    ensures lines[6] == ExtraGuestsLine(INCLUDED_GUESTS, ExtraGuests(f.party), EXTRA_GUEST_FEE_EUR)
    ensures lines[7] == EstimateLine(QuoteOf(f).total, DEPOSIT_EUR)
    ensures lines[8] != BlankLine <==> f.note != ""
    ensures f.note != "" ==> lines[8] == NoteLine(f.note)
  {
    var q := QuoteOf(f);
    [ Greeting,
      VillaLine(Villas(f.villa).name),
      CheckInLine(From(f.range)),
      CheckOutLine(To(f.range)),
      GuestsLine(f.party.adults, f.party.childrenOver2, f.party.infants02),
      NightsLine(Nights(f)),
      ExtraGuestsLine(INCLUDED_GUESTS, ExtraGuests(f.party), EXTRA_GUEST_FEE_EUR),
      EstimateLine(q.total, q.deposit),
      if f.note != "" then NoteLine(f.note) else BlankLine ]
  }

  /** The night count a reader finds in a message: the first `Nights:` line. */
  function ParseNights(lines: seq<Line>): (r: Option<nat>)
    ensures r.Some? <==> exists i :: 0 <= i < |lines| && lines[i].NightsLine?
    ensures r.Some? ==> exists i :: 0 <= i < |lines| && lines[i] == NightsLine(r.value)
                                  && forall j :: 0 <= j < i ==> !lines[j].NightsLine?
  {
    if lines == [] then None
    else if lines[0].NightsLine? then Some(lines[0].nights)
    else
      var r := ParseNights(lines[1..]);
      assert forall i :: 1 <= i < |lines| ==> lines[i] == lines[1..][i - 1];
      r
  }

  /** Reading the night count back out of the message gives the nights the quote was priced on. */
  lemma EnquiryNightsRoundTrip(f: Form)
    ensures ParseNights(EnquiryLines(f)) == Some(Nights(f))
    ensures QuoteOf(f) == Price(ParseNights(EnquiryLines(f)).value, Villas(f.villa).nightlyEUR, ExtraGuests(f.party))
  {
  }
}
