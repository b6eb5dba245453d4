/** The client's currency rule: the currency follows a country name (an explicit
    one, else the stored one, else "India"), and the number format's locale
    follows the currency. */
module Money {
  import opened Js
  import opened Text
  import opened Schemas

  datatype Currency = USD | INR

  function CurrencyCode(c: Currency): string {
    match c
    case USD => "USD"
    case INR => "INR"
  }

  /** `explicitCountry ?? stored ?? "India"`: only a missing value falls through,
      so an explicit "" is kept. */
  function CountrySetting(explicitCountry: Option<string>, stored: Option<string>): (r: string)
    ensures explicitCountry.Some? ==> r == explicitCountry.value
    ensures explicitCountry.None? && stored.Some? ==> r == stored.value
    ensures explicitCountry.None? && stored.None? ==> r == "India"
  {
    match explicitCountry
    case Some(c) => c
    case None => if stored.Some? then stored.value else "India"
  }

  /** `currencyOf`: USD exactly when the chosen country, lower-cased, is "america". */
  function CurrencyOf(explicitCountry: Option<string>, stored: Option<string>): (r: Currency)
    ensures r == USD <==> Lower(CountrySetting(explicitCountry, stored)) == "america"
  {
    if Lower(CountrySetting(explicitCountry, stored)) == "america" then USD else INR
  }

  /** An explicit country decides alone: the stored one is not consulted. */
  lemma ExplicitCountryWins(country: string, stored1: Option<string>, stored2: Option<string>)
    ensures CurrencyOf(Some(country), stored1) == CurrencyOf(Some(country), stored2)
  {
  }

  /** Without any country the currency is INR, and so it is for an explicit "". */
  lemma DefaultCurrencyIsInr(stored: Option<string>)
    ensures CurrencyOf(None, None) == INR
    ensures CurrencyOf(Some(""), stored) == INR
  {
    assert |Lower("India")| == 5;
  }

  /** The case of the country name does not matter. */
  lemma CurrencyIgnoresCase(country: string, stored: Option<string>)
    ensures CurrencyOf(Some(Upper(country)), stored) == CurrencyOf(Some(country), stored)
  {
    LowerForgetsCase(country);
  }

  /** The two country names of the schemas give their own currencies: America is
      billed in USD and India in INR. */
  lemma CountryCurrency(c: Country, stored: Option<string>)
    ensures CurrencyOf(Some(CountryName(c)), stored) == if c == America then USD else INR
  {
    match c
    case India =>
      assert |Lower("India")| == 5;
    case America =>
      var l := Lower("America");
      assert l[0] == LowerChar('A') == 'a';
      assert l == "america";
  }

  /** `code === "USD" ? "en-US" : "en-IN"`. */
  function Locale(c: Currency): (r: string)
    ensures r == "en-US" <==> c == USD
    ensures r == "en-US" || r == "en-IN"
  {
    if c == USD then "en-US" else "en-IN"
  }

  /** What `formatMoney` hands to the number formatter: locale, currency code,
      at most two fraction digits, and the amount, where a falsy amount is 0. */
  datatype MoneyFormat = MoneyFormat(locale: string, currency: string, maximumFractionDigits: nat, amount: real)

  function FormatMoney(amount: Option<real>, country: Option<string>, stored: Option<string>): (r: MoneyFormat)
    ensures r.currency == "USD" <==> r.locale == "en-US"
    ensures r.currency == "USD" <==> Lower(CountrySetting(country, stored)) == "america"
    ensures r.currency == "USD" || r.currency == "INR"
    ensures r.maximumFractionDigits == 2
    ensures r.amount == if amount.Some? then amount.value else 0.0
  {
    var code := CurrencyOf(country, stored);
    MoneyFormat(Locale(code), CurrencyCode(code), 2, if amount.None? || amount.value == 0.0 then 0.0 else amount.value)
  }
}
