/** lib/utils.js: the Deposit/Lending classification of a product category. */
module Utils {
  const DepositCategories: seq<string> :=
    ["REGULATED_TRUST_ACCOUNTS", "TERM_DEPOSITS", "TRANS_AND_SAVINGS_ACCOUNTS", "TRAVEL_CARDS"]

  /** `s.findIndex((c) => c === x)`: the first index holding `x`, or -1. */
  function FindIndex(s: seq<string>, x: string): (r: int)
    ensures -1 <= r < |s|
    ensures r == -1 <==> x !in s
    ensures r >= 0 ==> s[r] == x && forall j :: 0 <= j < r ==> s[j] != x
  {
    if s == [] then -1
    else if s[0] == x then 0
    else
      var k := FindIndex(s[1..], x);
      if k < 0 then -1 else k + 1
  }

  /** "Deposit" for the four deposit categories, "Lending" for everything else. */
  function ParseCategoryType(category: string): (r: string)
    ensures r == "Deposit" || r == "Lending"
    ensures r == "Deposit" <==> category in DepositCategories
  {
    if FindIndex(DepositCategories, category) >= 0 then "Deposit" else "Lending"
  }

  /** Matching is exact: a case variant of a deposit category is "Lending". */
  lemma CaseVariantIsLending()
    ensures ParseCategoryType("term_deposits") == "Lending"
    ensures ParseCategoryType("Travel_Cards") == "Lending"
    ensures ParseCategoryType("TERM_DEPOSITS") == "Deposit"
  {
    assert "term_deposits" != "TERM_DEPOSITS" by { assert "term_deposits"[0] != "TERM_DEPOSITS"[0]; }
  }
}
