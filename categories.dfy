/** The fixed tables the rules depend on: the spending categories, their
    colours and icons, and the supported currencies (src/types/budget.js). */
module Categories {

  const CATEGORIES: seq<string> := [
    "Food & Dining", "Transportation", "Entertainment", "Shopping",
    "Health", "Bills & Utilities", "Education", "Travel"
  ]

  const CATEGORY_COLORS: map<string, string> := map[
    "Food & Dining" := "#E8705A",
    "Transportation" := "#2DB5A3",
    "Entertainment" := "#E6C84D",
    "Shopping" := "#8B6FD8",
    "Health" := "#34B87A",
    "Bills & Utilities" := "#5A8FE6",
    "Education" := "#D85A93",
    "Travel" := "#E6943A"
  ]

  const CATEGORY_ICONS: map<string, string> := map[
    "Food & Dining" := "\U{1F37D}\U{FE0F}",
    "Transportation" := "\U{1F697}",
    "Entertainment" := "\U{1F3AE}",
    "Shopping" := "\U{1F6CD}\U{FE0F}",
    "Health" := "\U{1F48A}",
    "Bills & Utilities" := "\U{26A1}",
    "Education" := "\U{1F4DA}",
    "Travel" := "\U{2708}\U{FE0F}"
  ]

  datatype Currency = Currency(symbol: string, name: string)

  const CURRENCIES: map<string, Currency> := map[
    "USD" := Currency("$", "US Dollar"),
    "EUR" := Currency("\U{20AC}", "Euro"),
    "GBP" := Currency("\U{00A3}", "British Pound"),
    "JPY" := Currency("\U{00A5}", "Japanese Yen"),
    "INR" := Currency("\U{20B9}", "Indian Rupee")
  ]

  /** The colour a chart gives a category: `CATEGORY_COLORS[name] || '#888'`. */
  function ColorOrGrey(category: string): (r: string)
    ensures category in CATEGORIES ==> r == CATEGORY_COLORS[category]
    ensures category !in CATEGORY_COLORS ==> r == "#888"
  {
    if category in CATEGORY_COLORS then CATEGORY_COLORS[category] else "#888"
  }

  /** There are eight categories and no two are the same. */
  lemma CategoriesDistinct()
    ensures |CATEGORIES| == 8
    ensures forall i, j :: 0 <= i < j < |CATEGORIES| ==> CATEGORIES[i] != CATEGORIES[j]
  {
  }

  /** Every category has a colour and an icon, and the two tables name no
      other category. */
  lemma EveryCategoryHasColorAndIcon()
    ensures forall c :: c in CATEGORIES <==> c in CATEGORY_COLORS
    ensures forall c :: c in CATEGORIES <==> c in CATEGORY_ICONS
  {
  }

  /** Five currency codes, each with a non-empty symbol. */
  lemma FiveCurrencies()
    ensures CURRENCIES.Keys == {"USD", "EUR", "GBP", "JPY", "INR"}
    ensures |CURRENCIES| == 5
    ensures forall code :: code in CURRENCIES ==> CURRENCIES[code].symbol != ""
  {
  }
}
