/**
 * The state and handlers of frontend/src/components/TransactionForm.tsx.
 * The component's `useState` hooks are the fields of `TransactionForm`;
 * its props are `const` fields. The live quote (`getCurrentPrice`),
 * `parseFloat`, `Number.prototype.toString` and the local-calendar reading of
 * a date string (`new Date(s)`) are parameters.
 */
module TransactionFormComponent {
  import opened Wrappers
  import opened Types

  /** A local calendar day: what `getFullYear`, `getMonth` and `getDate`
      report. */
  datatype Date = Date(year: int, month: int, day: int)

  /** The `initialValues` prop of an edit form. */
  datatype InitialValues = InitialValues(
    portfolioId: string,
    cryptocurrencyId: string,
    tip: string,
    kolicina: real,
    cijena: real,
    datum: string,
    riskTypeId: string)

  /** The record handed to `onSubmit`. */
  datatype Submission = Submission(
    portfolioId: string,
    cryptocurrencyId: string,
    tip: string,
    kolicina: real,
    cijena: real,
    datum: string,
    riskTypeId: string)

  /** JavaScript's `a || b` on strings: the empty string is falsy. */
  function OrElse(a: string, b: string): string
  {
    if a != "" then a else b
  }

  /** `isToday`: the string parses to a valid date on today's calendar day.
      An unparsable string (an Invalid Date) is never today. */
  predicate IsToday(parsed: Option<Date>, today: Date)
    ensures IsToday(parsed, today) <==>
      parsed.Some? && parsed.value.year == today.year && parsed.value.month == today.month && parsed.value.day == today.day
    ensures parsed.None? ==> !IsToday(parsed, today)
  {
    parsed.Some? && parsed.value == today
  }

  class TransactionForm {
    const initialValues: Option<InitialValues>
    const cryptocurrencies: seq<Cryptocurrency>

    var selectedPortfolioId: string
    var selectedCryptocurrencyId: string
    var selectedRiskTypeId: string
    var tip: string
    var kolicina: string
    var datum: string
    var manualPrice: string
    var forceManualPrice: bool

    /** The effect's postcondition: a manual price is forced exactly when
        the chosen date is not today. */
    predicate PriceModeSynced(parse: string -> Option<Date>, today: Date)
      reads this
    {
      forceManualPrice == !IsToday(parse(datum), today)
    }

    /** The first render followed by the mount run of the price-mode effect.
        `show` is `Number.prototype.toString`; `todayIso` is today's
        `YYYY-MM-DD`. */
    constructor(initialValues: Option<InitialValues>, cryptocurrencies: seq<Cryptocurrency>,
                defaultPortfolioId: Option<string>, todayIso: string, show: real -> string,
                parse: string -> Option<Date>, today: Date)
      ensures this.initialValues == initialValues && this.cryptocurrencies == cryptocurrencies
      ensures initialValues.None? ==>
        && selectedPortfolioId == (if defaultPortfolioId.Some? then defaultPortfolioId.value else "")
        && selectedCryptocurrencyId == "" && selectedRiskTypeId == ""
        && tip == "BUY" && kolicina == "" && datum == todayIso && manualPrice == ""
      ensures initialValues.Some? ==>
        var iv := initialValues.value;
        && selectedPortfolioId == OrElse(iv.portfolioId, if defaultPortfolioId.Some? then defaultPortfolioId.value else "")
        && selectedCryptocurrencyId == iv.cryptocurrencyId && selectedRiskTypeId == iv.riskTypeId
        && tip == OrElse(iv.tip, "BUY") && kolicina == show(iv.kolicina)
        && datum == OrElse(iv.datum, todayIso) && manualPrice == show(iv.cijena)
      ensures PriceModeSynced(parse, today)
    {
      this.initialValues := initialValues;
      this.cryptocurrencies := cryptocurrencies;
      var fallback := if defaultPortfolioId.Some? then defaultPortfolioId.value else "";
      if initialValues.Some? {
        var iv := initialValues.value;
        selectedPortfolioId := OrElse(iv.portfolioId, fallback);
        selectedCryptocurrencyId := iv.cryptocurrencyId;
        selectedRiskTypeId := iv.riskTypeId;
        tip := OrElse(iv.tip, "BUY");
        kolicina := show(iv.kolicina);
        datum := OrElse(iv.datum, todayIso);
        manualPrice := show(iv.cijena);
      } else {
        selectedPortfolioId := fallback;
        selectedCryptocurrencyId := "";
        selectedRiskTypeId := "";
        tip := "BUY";
        kolicina := "";
        datum := todayIso;
        manualPrice := "";
      }
      new;
      forceManualPrice := !IsToday(parse(datum), today);
    }

    /** The price-mode effect: require a manual price unless the date is
        today. */
    method SyncPriceMode(parse: string -> Option<Date>, today: Date)
      modifies this`forceManualPrice
      ensures PriceModeSynced(parse, today)
    {
      if !IsToday(parse(datum), today) {
        forceManualPrice := true;
      } else {
        forceManualPrice := false;
      }
    }

    /** The date input. The effect re-runs, reading today's date afresh, only
        when the date changed; otherwise the price mode is left as it was,
        even if it was set on an earlier day. */
    method SetDatum(d: string, parse: string -> Option<Date>, today: Date)
      modifies this
      ensures datum == d
      ensures d != old(datum) ==> PriceModeSynced(parse, today)
      ensures d == old(datum) ==> forceManualPrice == old(forceManualPrice)
      ensures selectedPortfolioId == old(selectedPortfolioId) && selectedCryptocurrencyId == old(selectedCryptocurrencyId)
      ensures selectedRiskTypeId == old(selectedRiskTypeId) && tip == old(tip)
      ensures kolicina == old(kolicina) && manualPrice == old(manualPrice)
    {
      if d != datum {
        datum := d;
        SyncPriceMode(parse, today);
      }
    }

    /** A cryptocurrency card. The effect re-runs when the choice changed,
        which sets the price mode from the date as of `today`; an unchanged
        choice leaves the price mode as it was. */
    method SelectCryptocurrency(id: string, parse: string -> Option<Date>, today: Date)
      modifies this
      ensures selectedCryptocurrencyId == id
      ensures id != old(selectedCryptocurrencyId) ==> PriceModeSynced(parse, today)
      ensures id == old(selectedCryptocurrencyId) ==> forceManualPrice == old(forceManualPrice)
      ensures selectedPortfolioId == old(selectedPortfolioId) && selectedRiskTypeId == old(selectedRiskTypeId)
      ensures tip == old(tip) && kolicina == old(kolicina) && datum == old(datum) && manualPrice == old(manualPrice)
    {
      if id != selectedCryptocurrencyId {
        selectedCryptocurrencyId := id;
        SyncPriceMode(parse, today);
      }
    }

    /** A portfolio card. */
    method SelectPortfolio(id: string)
      modifies this`selectedPortfolioId
      ensures selectedPortfolioId == id
    {
      selectedPortfolioId := id;
    }

    /** The risk type select. */
    method SelectRiskType(id: string)
      modifies this`selectedRiskTypeId
      ensures selectedRiskTypeId == id
    {
      selectedRiskTypeId := id;
    }

    /** The BUY and SELL buttons: the form only ever holds these two. */
    method ChooseDirection(buy: bool)
      modifies this`tip
      ensures tip == (if buy then "BUY" else "SELL")
    {
      tip := if buy then "BUY" else "SELL";
    }

    /** The quantity input. */
    method SetKolicina(s: string)
      modifies this`kolicina
      ensures kolicina == s
    {
      kolicina := s;
    }

    /** The manual price input. */
    method SetManualPrice(s: string)
      modifies this`manualPrice
      ensures manualPrice == s
    {
      manualPrice := s;
    }

    /** `selectedCrypto`: the first catalogue entry with the selected id. */
    function SelectedCrypto(): (r: Option<nat>)
      reads this
      ensures r.None? <==> forall j :: 0 <= j < |cryptocurrencies| ==> cryptocurrencies[j].id != selectedCryptocurrencyId
      ensures r.Some? ==> r.value < |cryptocurrencies| && cryptocurrencies[r.value].id == selectedCryptocurrencyId
      ensures r.Some? ==> forall j :: 0 <= j < r.value ==> cryptocurrencies[j].id != selectedCryptocurrencyId
    {
      var id := selectedCryptocurrencyId;
      FindIndex(cryptocurrencies, (c: Cryptocurrency) => c.id == id)
    }

    /** `handleSubmit`: nothing is submitted unless every field is filled
        and the selected id names a listed cryptocurrency. The price is the
        manual one when forced, otherwise the edited transaction's own price,
        otherwise the live quote. */
    function HandleSubmit(quote: string -> real, parseFloat: string -> real): (r: Option<Submission>)
      reads this
      ensures r.Some? <==>
        && selectedPortfolioId != "" && selectedCryptocurrencyId != "" && selectedRiskTypeId != ""
        && kolicina != "" && datum != "" && SelectedCrypto().Some?
      ensures r.Some? ==>
        && r.value.portfolioId == selectedPortfolioId
        && r.value.cryptocurrencyId == selectedCryptocurrencyId
        && r.value.riskTypeId == selectedRiskTypeId
        && r.value.tip == tip && r.value.datum == datum
        && r.value.kolicina == parseFloat(kolicina)
      ensures r.Some? ==> exists j :: 0 <= j < |cryptocurrencies| && cryptocurrencies[j].id == r.value.cryptocurrencyId
      ensures r.Some? && forceManualPrice ==> r.value.cijena == parseFloat(manualPrice)
      ensures r.Some? && !forceManualPrice && initialValues.Some? ==> r.value.cijena == initialValues.value.cijena
      ensures r.Some? && !forceManualPrice && initialValues.None? ==>
        r.value.cijena == quote(cryptocurrencies[SelectedCrypto().value].symbol)
    {
      var crypto := SelectedCrypto();
      if selectedPortfolioId != "" && selectedCryptocurrencyId != "" && selectedRiskTypeId != ""
         && kolicina != "" && datum != "" && crypto.Some?
      then
        var price :=
          if forceManualPrice then parseFloat(manualPrice)
          else if initialValues.Some? then initialValues.value.cijena
          else quote(cryptocurrencies[crypto.value].symbol);
        Some(Submission(selectedPortfolioId, selectedCryptocurrencyId, tip,
                        parseFloat(kolicina), price, datum, selectedRiskTypeId))
      else None
    }

    /** `getCurrentMarketPrice`: the live quote of the selection, 0 without
        one. */
    function CurrentMarketPrice(quote: string -> real): (p: real)
      reads this
      ensures SelectedCrypto().None? ==> p == 0.0
      ensures SelectedCrypto().Some? ==> p == quote(cryptocurrencies[SelectedCrypto().value].symbol)
    {
      var crypto := SelectedCrypto();
      if crypto.None? then 0.0 else quote(cryptocurrencies[crypto.value].symbol)
    }

    /** `getTotalValue`: quantity times the live quote, 0 while the quantity
        is empty or nothing is selected. */
    function TotalValue(quote: string -> real, parseFloat: string -> real): (v: real)
      reads this
      ensures kolicina == "" || SelectedCrypto().None? ==> v == 0.0
      ensures kolicina != "" && SelectedCrypto().Some? ==>
        v == parseFloat(kolicina) * quote(cryptocurrencies[SelectedCrypto().value].symbol)
    {
      if kolicina == "" || SelectedCrypto().None? then 0.0
      else parseFloat(kolicina) * CurrentMarketPrice(quote)
    }

    /** The submit button's `disabled`. */
    function SubmitDisabled(isLoading: bool): (disabled: bool)
      reads this
      ensures !disabled <==>
        && !isLoading && selectedPortfolioId != "" && selectedCryptocurrencyId != ""
        && selectedRiskTypeId != "" && kolicina != "" && (forceManualPrice ==> manualPrice != "")
    {
      isLoading || selectedPortfolioId == "" || selectedCryptocurrencyId == ""
        || selectedRiskTypeId == "" || kolicina == "" || (forceManualPrice && manualPrice == "")
    }

    /** The submit button's caption. */
    function ButtonLabel(isLoading: bool): (caption: string)
      reads this
      ensures isLoading && initialValues.Some? <==> caption == "Saving..."
      ensures isLoading && initialValues.None? <==> caption == "Creating..."
      ensures !isLoading && initialValues.Some? <==> caption == "Save Changes"
      ensures !isLoading && initialValues.None? <==> caption == "Create Transaction"
    {
      if isLoading then (if initialValues.Some? then "Saving..." else "Creating...")
      else if initialValues.Some? then "Save Changes" else "Create Transaction"
    }
  }

  /** An enabled button submits as soon as the date is set and the selected
      id is in the catalogue; the button itself checks neither. Conversely a
      submission needs everything the button checks except the manual
      price. */
  lemma EnabledButtonSubmits(f: TransactionForm, quote: string -> real, parseFloat: string -> real)
    ensures !f.SubmitDisabled(false) && f.datum != "" && f.SelectedCrypto().Some? ==>
      f.HandleSubmit(quote, parseFloat).Some?
    ensures f.HandleSubmit(quote, parseFloat).Some? && (f.forceManualPrice ==> f.manualPrice != "") ==>
      !f.SubmitDisabled(false)
  {
  }

  /** A new transaction dated today is priced at the live quote: with BTC
      quoted at 50000, 50000 is submitted. */
  lemma LivePriceSubmittedToday(f: TransactionForm, quote: string -> real, parseFloat: string -> real,
                                parse: string -> Option<Date>, today: Date)
    requires f.initialValues.None? && f.PriceModeSynced(parse, today) && IsToday(parse(f.datum), today)
    requires |f.cryptocurrencies| > 0 && f.cryptocurrencies[0].id == f.selectedCryptocurrencyId
    requires f.cryptocurrencies[0].symbol == "BTC" && quote("BTC") == 50000.0
    requires f.selectedPortfolioId != "" && f.selectedCryptocurrencyId != "" && f.selectedRiskTypeId != ""
    requires f.kolicina != "" && f.datum != ""
    ensures f.HandleSubmit(quote, parseFloat).Some?
    ensures f.HandleSubmit(quote, parseFloat).value.cijena == 50000.0
  {
    assert f.SelectedCrypto().Some?;
  }

  /** Once the date is moved to a day that is not today, whatever the form
      was editing, the submitted price is the typed manual price. Setting the
      date it already holds re-runs nothing, so the price mode stays as it
      was. */
  method BackdatedSubmitsManualPrice(f: TransactionForm, d: string, quote: string -> real,
                                     parseFloat: string -> real, parse: string -> Option<Date>, today: Date)
    returns (r: Option<Submission>)
    modifies f
    requires !IsToday(parse(d), today)
    ensures r == f.HandleSubmit(quote, parseFloat)
    ensures d != old(f.datum) ==> f.forceManualPrice
    ensures d != old(f.datum) && r.Some? ==> r.value.cijena == parseFloat(f.manualPrice) && r.value.datum == d
    ensures d == old(f.datum) ==> f.forceManualPrice == old(f.forceManualPrice)
  {
    f.SetDatum(d, parse, today);
    r := f.HandleSubmit(quote, parseFloat);
  }
}
