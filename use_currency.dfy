/**
 * The currency hook: the symbol table, the currency chosen from the
 * preferences, and the two formatters.  The locale-aware and fixed-point
 * number renderings are parameters: `twoDecimals` stands for
 * `value.toLocaleString('en-US', { two fraction digits })` and `oneDecimal`
 * for `toFixed(1)`.
 */
module UseCurrency {
  import opened Seqs
  import opened UsePreferences

  const AllCurrencies: seq<Currency> := [USD, EUR, GBP, JPY, INR]

  /** `currencySymbols[c]`. */
  function Symbol(c: Currency): (r: string)
    ensures |r| == 1
  {
    match c
    case USD => "$"
    case EUR => "€"
    case GBP => "£"
    case JPY => "¥"
    case INR => "₹"
  }

  /** The table lists exactly five currencies, each with a symbol of its own. */
  lemma SymbolTable()
    ensures |AllCurrencies| == 5 && NoDuplicates(AllCurrencies)
    ensures forall c: Currency :: c in AllCurrencies
    ensures forall c, d: Currency :: c != d ==> Symbol(c) != Symbol(d)
  {
    forall c: Currency ensures c in AllCurrencies {
      match c {
        case USD => assert AllCurrencies[0] == c;
        case EUR => assert AllCurrencies[1] == c;
        case GBP => assert AllCurrencies[2] == c;
        case JPY => assert AllCurrencies[3] == c;
        case INR => assert AllCurrencies[4] == c;
      }
    }
  }

  /** `preferences?.currency || 'USD'`: the preferred currency, `USD` when none is stored. */
  function CurrencyOf(preferences: Option<Preferences>): (c: Currency)
    ensures preferences.None? || preferences.value.currency.None? ==> c == USD
    ensures preferences.Some? && preferences.value.currency.Some? ==> c == preferences.value.currency.value
  {
    if preferences.Some? && preferences.value.currency.Some? then preferences.value.currency.value else USD
  }

  /** What the hook hands out besides its formatters: the chosen currency and its symbol. */
  datatype CurrencyChoice = CurrencyChoice(currency: Currency, symbol: string)

  /** `useCurrency()`'s `currency` and `symbol`: the table's entry for the preferred currency, `$` by default. */
  function UseCurrencyHook(preferences: Option<Preferences>): (h: CurrencyChoice)
    ensures h.currency == CurrencyOf(preferences) && h.symbol == Symbol(h.currency)
    ensures preferences.None? || preferences.value.currency.None? ==> h.symbol == "$"
  {
    var currency := CurrencyOf(preferences);
    CurrencyChoice(currency, Symbol(currency))
  }

  /**
   * The first character of any amount the hook formats names the currency:
   * two amounts formatted under different preferences start alike only when
   * both preferences resolve to the same currency.
   */
  lemma FormatNamesCurrency(p: Option<Preferences>, q: Option<Preferences>, v: real, w: real,
                            twoDecimals: real -> string)
    ensures var a := Format(UseCurrencyHook(p).symbol, v, twoDecimals);
      var b := Format(UseCurrencyHook(q).symbol, w, twoDecimals);
      a[..1] == b[..1] <==> CurrencyOf(p) == CurrencyOf(q)
  {
  }

  /** `format(value)`: the symbol, then the value with two decimals. */
  function Format(symbol: string, value: real, twoDecimals: real -> string): (r: string)
    ensures |r| >= |symbol| && r[..|symbol|] == symbol
    ensures r[|symbol|..] == twoDecimals(value)
  {
    symbol + twoDecimals(value)
  }

  /** Which branch of `formatShort` a value takes. */
  datatype ShortForm = Millions | Thousands | Full

  function ShortFormOf(value: real): (f: ShortForm)
    ensures f == Millions <==> value >= 1000000.0
    ensures f == Thousands <==> 1000.0 <= value < 1000000.0
    ensures f == Full <==> value < 1000.0
  {
    if value >= 1000000.0 then Millions
    else if value >= 1000.0 then Thousands
    else Full
  }

  /**
   * `formatShort(value)`: millions with one decimal and `m`, thousands with
   * one decimal and `k`, anything below a thousand (negative values
   * included) exactly as `format` renders it.
   */
  function FormatShort(symbol: string, value: real, oneDecimal: real -> string, twoDecimals: real -> string): (r: string)
    ensures |r| >= |symbol| && r[..|symbol|] == symbol
    ensures ShortFormOf(value) == Millions ==> r == symbol + oneDecimal(value / 1000000.0) + "m"
    ensures ShortFormOf(value) == Thousands ==> r == symbol + oneDecimal(value / 1000.0) + "k"
    ensures ShortFormOf(value) == Full ==> r == Format(symbol, value, twoDecimals)
  {
    match ShortFormOf(value)
    case Millions => symbol + oneDecimal(value / 1000000.0) + "m"
    case Thousands => symbol + oneDecimal(value / 1000.0) + "k"
    case Full => Format(symbol, value, twoDecimals)
  }

  /** The characters a rendered number is made of. */
  predicate IsNumberText(s: string) {
    forall i :: 0 <= i < |s| ==> s[i] in "0123456789.,-"
  }

  /**
   * As long as the two-decimal rendering is a non-empty run of digits,
   * separators and signs, the shortened text ends in `m` exactly for a
   * million or more and in `k` exactly from a thousand up to a million.
   */
  lemma ShortSuffix(symbol: string, value: real, oneDecimal: real -> string, twoDecimals: real -> string)
    requires IsNumberText(twoDecimals(value)) && |twoDecimals(value)| > 0
    ensures var r := FormatShort(symbol, value, oneDecimal, twoDecimals);
      && |r| > 0
      && (r[|r| - 1] == 'm' <==> value >= 1000000.0)
      && (r[|r| - 1] == 'k' <==> 1000.0 <= value < 1000000.0)
  {
    var r := FormatShort(symbol, value, oneDecimal, twoDecimals);
    if value < 1000.0 {
      var n := twoDecimals(value);
      assert r[|r| - 1] == n[|n| - 1];
    }
  }
}
