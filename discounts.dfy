/**
 * A discount by day of the week, twice: as an early-return ladder, which
 * falls off its end (returning `undefined`) for anything but the seven exact
 * day names, and as a lookup in a table that defaults to 0 on a miss.
 */
module DayDiscounts {
  import opened Records

  /** The seven day names, spelled and capitalised exactly as compared. */
  const DayNames: set<string> :=
    {"Monday", "Tuesday", "Wednesday", "Thursday", "Friday", "Saturday", "Sunday"}

  /** `getDiscount`: `None` stands for the `undefined` returned off the end of the ladder. */
  function GetDiscount(day: string): (r: Option<real>)
    ensures r.Some? <==> day in DayNames
    ensures r.Some? ==> 0.0 <= r.value <= 0.25
  {
    if day == "Monday" then Some(0.05)
    else if day == "Tuesday" then Some(0.10)
    else if day == "Wednesday" then Some(0.15)
    else if day == "Thursday" then Some(0.05)
    else if day == "Friday" then Some(0.20)
    else if day == "Saturday" then Some(0.25)
    else if day == "Sunday" then Some(0.00)
    else None
  }

  /** The discount each day gets from the ladder. */
  lemma GetDiscountByDay()
    ensures GetDiscount("Monday") == Some(0.05)
    ensures GetDiscount("Tuesday") == Some(0.10)
    ensures GetDiscount("Wednesday") == Some(0.15)
    ensures GetDiscount("Thursday") == Some(0.05)
    ensures GetDiscount("Friday") == Some(0.20)
    ensures GetDiscount("Saturday") == Some(0.25)
    ensures GetDiscount("Sunday") == Some(0.00)
  {
  }

  /**
   * Comparison is exact: a lower-case day name is not a day. A corollary of
   * `DiscountVersionsAgreeExactlyOnDays` for one string.
   */
  lemma GetDiscountIsCaseSensitive()
    ensures GetDiscount("monday") == None
    ensures GetDiscountBetter("monday") == 0.0
  {
    DiscountVersionsAgreeExactlyOnDays("monday");
  }

  /** `discounts`. */
  const Discounts: map<string, real> := map[
    "Monday" := 0.05, "Tuesday" := 0.10, "Wednesday" := 0.15,
    "Thursday" := 0.05, "Friday" := 0.20, "Saturday" := 0.25, "Sunday" := 0.00
  ]

  /**
   * `getDiscountBetter`: the table's entry, or 0 when the day has none
   * (`?? 0` only replaces a missing entry, so Sunday's 0 is the table's own).
   */
  function GetDiscountBetter(day: string): (r: real)
    ensures day !in DayNames ==> r == 0.0
    ensures 0.0 <= r <= 0.25
  {
    if day in Discounts then Discounts[day] else 0.0
  }

  /** The table holds exactly the seven day names. */
  lemma DiscountsKeys()
    ensures Discounts.Keys == DayNames
  {
  }

  /**
   * The two versions agree on every day name and differ on every other
   * string, where the ladder gives `undefined` and the table 0.
   */
  lemma DiscountVersionsAgreeExactlyOnDays(day: string)
    ensures GetDiscount(day) == Some(GetDiscountBetter(day)) <==> day in DayNames
    ensures day !in DayNames ==> GetDiscount(day) == None && GetDiscountBetter(day) == 0.0
  {
  }

  /** Saturday's discount is the largest either version gives. */
  lemma SaturdayIsLargest(day: string)
    ensures GetDiscountBetter(day) <= GetDiscountBetter("Saturday")
    ensures GetDiscount(day).Some? ==> GetDiscount(day).value <= GetDiscount("Saturday").value
  {
  }
}
