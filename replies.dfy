/**
 * The texts the webhook replies with: fixed messages, the pricing summary projected
 * from the gym's Firestore document, the join-today breakdown and the quote confirmation.
 * Each function is the Python expression that builds the text; an `Err` is the exception
 * that expression raises.
 */
module Replies {
  import opened Numerals
  import opened Values
  import opened Calendar
  import opened Strings

  /** The one gym document both pricing replies read from the "gyms" collection. */
  const GymId := "covent-garden-fitness-wellbeing-gym"

  const FallbackText := "I'm sorry, I didn't understand that. Could you please rephrase?"
  const MembershipText :=
    "Membership & Pricing\n\nChoose the plan that's right for you.\n\n"
    + "We offer a variety of flexible membership options. "
    + "Our current special is 50% off a 12-month membership until 2026! "
    + "Our most popular plan includes unlimited access to all facilities and classes."
  const PricingNotFoundText := "Sorry, I could not find pricing details for this gym."
  const PricingOfflineText := "Sorry, the database is not connected."
  const JoinNotFoundText := "Gym details not found."
  const JoinOfflineText := "Database not connected."
  const QuotePromptText :=
    "To get a personalized quote, please tell me your full name, email address, "
    + "and a good time for a team member to contact you."
  const SaveFailedText := "Error saving your information. Please try again later."
  const SaveOfflineText := "Database not connected. Cannot save information."

  /** The fixed amounts of the join-today breakdown, in pence. */
  const ActivationFeePence := 2900
  const MonthlyRemainderPence := 3185

  // ---- The pricing summary of the view-pricing reply

  /** The "anytime" price map under "membership", each level defaulting to an empty dict. */
  function Anytime(data: seq<Entry>): Result<Value>
  {
    Get(GetIn(data, "membership", PDict([])), "anytime", PDict([]))
  }

  /** The plan stored under `key` in the "anytime" map, or {} when it is missing. */
  function Plan(plans: seq<Entry>, key: string): Value
  {
    GetIn(plans, key, PDict([]))
  }

  /** What a field of the dict shows in a reply: str() of its value, or the default when it is missing. */
  function Shown(entries: seq<Entry>, key: string, default: string): string
  {
    Str(GetIn(entries, key, PStr(default)))
  }

  /** A missing field shows its default, a present one the str() of its value. */
  lemma ShownDefault(entries: seq<Entry>, key: string, default: string)
    ensures Find(entries, key).None? ==> Shown(entries, key, default) == default
    ensures Find(entries, key).Some? ==> Shown(entries, key, default) == Str(Find(entries, key).value)
  {
  }

  /** A price line of the summary, without its final line break. */
  function PriceLine(currency: string, price: string, period: string): string
  {
    "   - Price: " + currency + " " + price + " per " + period + "\n"
  }

  /** The heading and the 12-month plan: the first f-string of the summary, line by line. */
  function TwelveMonthLines(data: seq<Entry>, plan: seq<Entry>): seq<string>
  {
    var currency := Shown(plan, "currency", "GBP");
    [ "Pricing Details for " + Shown(data, "name", "this gym") + "\n\n",
      "Our flexible plans are designed to fit your lifestyle.\n\n",
      "1. 12-Month Commitment Plan\n",
      "   - Commitment: " + Shown(plan, "commitment", "N/A") + "\n",
      PriceLine(currency, Shown(plan, "discountPrice", "N/A"), Shown(plan, "period", "month")),
      "   - Original Price: " + currency + " " + Shown(plan, "originalPrice", "N/A") + "\n"]
  }

  const PromotionMarker := "   - Promotion: "

  function PromotionLine(description: string, condition: string): string
  {
    PromotionMarker + (description + " (" + condition + ")\n\n")
  }

  /** The promotion line, present only when the promotion's "active" field is truthy. */
  function PromotionText(promo: seq<Entry>): string
  {
    if Truthy(GetIn(promo, "active", PNone)) then
      PromotionLine(Shown(promo, "description", "N/A"), Shown(promo, "condition", "N/A"))
    else ""
  }

  const RollingHeading := "2. 1-Month Rolling Plan\n"

  /** The 1-month rolling plan, the last f-string of the summary, line by line. */
  function RollingLines(plan: seq<Entry>): seq<string>
  {
    [ RollingHeading,
      "   - Commitment: " + Shown(plan, "commitment", "N/A") + "\n",
      PriceLine(Shown(plan, "currency", "GBP"), Shown(plan, "price", "N/A"), Shown(plan, "period", "month")) + "\n"]
  }

  /** pricing_info for the document `data` and its three plan dicts. */
  function SummaryText(data: seq<Entry>, twelve: seq<Entry>, promo: seq<Entry>, rolling: seq<Entry>): string
  {
    Concat(TwelveMonthLines(data, twelve)) + PromotionText(promo) + Concat(RollingLines(rolling))
  }

  /**
   * pricing_info, built from the gym document's fields (doc.to_dict()); the .get calls on
   * a plan that is not a dict raise AttributeError.
   */
  function PricingSummary(data: seq<Entry>): Result<string>
  {
    var anytime :- Anytime(data);
    match anytime
    case PDict(plans) =>
      (match (Plan(plans, "12MonthCommitment"), Plan(plans, "promotion"), Plan(plans, "1MonthRolling"))
       case (PDict(twelve), PDict(promo), PDict(rolling)) => Ok(SummaryText(data, twelve, promo, rolling))
       case _ => Err(AttributeError))
    case _ => Err(AttributeError)
  }

  /** Every level of the document the summary walks through is a dict where it is present. */
  predicate PricingShaped(data: seq<Entry>)
  {
    var anytime := Anytime(data);
    && anytime.Ok? && anytime.value.PDict?
    && Plan(anytime.value.entries, "12MonthCommitment").PDict?
    && Plan(anytime.value.entries, "1MonthRolling").PDict?
    && Plan(anytime.value.entries, "promotion").PDict?
  }

  /** The summary can be built exactly when the document has that shape; otherwise a .get raises AttributeError. */
  lemma PricingSummaryDefinedIffShaped(data: seq<Entry>)
    ensures PricingSummary(data).Ok? <==> PricingShaped(data)
    ensures !PricingShaped(data) ==> PricingSummary(data) == Err(AttributeError)
  {
  }

  /** A summary that can be built is the text for the three plans the document holds. */
  lemma PricingSummaryOfShaped(data: seq<Entry>)
    requires PricingShaped(data)
    ensures
      var plans := Anytime(data).value.entries;
      PricingSummary(data) == Ok(SummaryText(data, Plan(plans, "12MonthCommitment").entries,
        Plan(plans, "promotion").entries, Plan(plans, "1MonthRolling").entries))
  {
    var plans := Anytime(data).value.entries;
    assert Anytime(data) == Ok(PDict(plans));
  }

  /** A marker right after `head` is found there exactly when it was put there. */
  lemma MarkerAfterHead(head: string, marker: string, rest: string, tail: string, shown: bool)
    requires marker != [] && tail != [] && tail[0] != marker[0]
    ensures IsInfixAt(head + (if shown then marker + rest else "") + tail, marker, |head|) <==> shown
  {
    var text := head + (if shown then marker + rest else "") + tail;
    if shown {
      InfixOfConcat(head, marker, rest + tail);
      assert text == head + marker + (rest + tail);
    } else {
      assert text == head + tail;
      if |head| + |marker| <= |text| {
        assert text[|head|..|head| + |marker|][0] == tail[0];
      }
    }
  }

  /** The rolling part begins with its "2." heading. */
  lemma RollingTextStartsWithTwo(plan: seq<Entry>)
    ensures |Concat(RollingLines(plan))| > 0 && Concat(RollingLines(plan))[0] == '2'
  {
    var lines := RollingLines(plan);
    ConcatInfix(lines, 0);
    assert lines[..0] == [];
    assert Concat(lines)[..|RollingHeading|] == RollingHeading;
  }

  /**
   * The summary is the 12-month part, then the promotion line with its description and
   * condition if and only if promotion.active is truthy, then the rolling part.
   */
  lemma PromotionLineIffActive(data: seq<Entry>, twelve: seq<Entry>, promo: seq<Entry>, rolling: seq<Entry>)
    ensures
      var head := Concat(TwelveMonthLines(data, twelve));
      var tail := Concat(RollingLines(rolling));
      var line := PromotionLine(Shown(promo, "description", "N/A"), Shown(promo, "condition", "N/A"));
      SummaryText(data, twelve, promo, rolling) ==
        if Truthy(GetIn(promo, "active", PNone)) then head + line + tail else head + tail
  {
  }

  /** The text right after the 12-month part begins "   - Promotion: " exactly when the promotion is active. */
  lemma PromotionMarkerIffActive(data: seq<Entry>, twelve: seq<Entry>, promo: seq<Entry>, rolling: seq<Entry>)
    ensures IsInfixAt(SummaryText(data, twelve, promo, rolling), PromotionMarker,
                      |Concat(TwelveMonthLines(data, twelve))|)
            <==> Truthy(GetIn(promo, "active", PNone))
  {
    var head := Concat(TwelveMonthLines(data, twelve));
    var tail := Concat(RollingLines(rolling));
    var active := Truthy(GetIn(promo, "active", PNone));
    var rest := Shown(promo, "description", "N/A") + " (" + Shown(promo, "condition", "N/A") + ")\n\n";
    PromotionLineIffActive(data, twelve, promo, rolling);
    RollingTextStartsWithTwo(rolling);
    assert SummaryText(data, twelve, promo, rolling) == head + (if active then PromotionMarker + rest else "") + tail;
    MarkerAfterHead(head, PromotionMarker, rest, tail, active);
  }

  /**
   * Prices are shown as str() of the stored value, not to two decimals: with no currency
   * and no period stored, a 12-month price of 30.0 reads "GBP 30.0 per month".
   */
  lemma TwelveMonthPriceShownAsStr(data: seq<Entry>, plan: seq<Entry>, cents: int)
    requires Find(plan, "discountPrice") == Some(PFloat(cents))
    requires Find(plan, "currency").None? && Find(plan, "period").None?
    ensures Contains(Concat(TwelveMonthLines(data, plan)), PriceLine("GBP", FloatRepr(cents), "month"))
  {
    ConcatInfix(TwelveMonthLines(data, plan), 4);
  }

  /**
   * A 12-month plan with none of the fields shown (and a document without a name) shows
   * the defaults "this gym", "N/A", "GBP" and "month".
   */
  lemma TwelveMonthDefaults(data: seq<Entry>, plan: seq<Entry>)
    requires Find(data, "name").None?
    requires Find(plan, "commitment").None? && Find(plan, "currency").None? && Find(plan, "period").None?
    requires Find(plan, "discountPrice").None? && Find(plan, "originalPrice").None?
    ensures TwelveMonthLines(data, plan) == [
      "Pricing Details for this gym\n\n",
      "Our flexible plans are designed to fit your lifestyle.\n\n",
      "1. 12-Month Commitment Plan\n",
      "   - Commitment: N/A\n",
      "   - Price: GBP N/A per month\n",
      "   - Original Price: GBP N/A\n"]
  {
    var lines := TwelveMonthLines(data, plan);
    assert lines[0] == "Pricing Details for this gym\n\n";
    assert lines[3] == "   - Commitment: N/A\n";
    assert lines[4] == "   - Price: GBP N/A per month\n";
    assert lines[5] == "   - Original Price: GBP N/A\n";
  }

  /** So does a rolling plan with none of its fields. */
  lemma RollingDefaults(plan: seq<Entry>)
    requires Find(plan, "commitment").None? && Find(plan, "currency").None? && Find(plan, "period").None?
    requires Find(plan, "price").None?
    ensures RollingLines(plan) == [
      "2. 1-Month Rolling Plan\n",
      "   - Commitment: N/A\n",
      "   - Price: GBP N/A per month\n\n"]
  {
    var lines := RollingLines(plan);
    assert lines[1] == "   - Commitment: N/A\n";
    assert lines[2] == "   - Price: GBP N/A per month\n\n";
  }

  /** An active promotion without description or condition shows "N/A" for both. */
  lemma PromotionDefaults(promo: seq<Entry>)
    requires Truthy(GetIn(promo, "active", PNone))
    requires Find(promo, "description").None? && Find(promo, "condition").None?
    ensures PromotionText(promo) == "   - Promotion: N/A (N/A)\n\n"
  {
    assert PromotionText(promo) == PromotionMarker + ("N/A" + " (" + "N/A" + ")\n\n");
  }

  /**
   * A document without membership data gives the summary of three empty plans, which
   * has no promotion line.
   */
  lemma NoMembershipShowsDefaults(data: seq<Entry>)
    requires Find(data, "membership").None?
    ensures PricingSummary(data) == Ok(SummaryText(data, [], [], []))
    ensures SummaryText(data, [], [], []) == Concat(TwelveMonthLines(data, [])) + Concat(RollingLines([]))
  {
    assert Anytime(data) == Ok(PDict([]));
    assert PricingShaped(data);
    PricingSummaryOfShaped(data);
    PromotionLineIffActive(data, [], [], []);
  }

  // ---- The join-today breakdown of the join-now reply

  /** The 12-month plan of the "anytime" price map, each level defaulting to an empty dict. */
  function TwelveMonthPlan(data: seq<Entry>): Result<Value>
  {
    var anytime :- Anytime(data);
    Get(anytime, "12MonthCommitment", PDict([]))
  }

  /** The stored 12-month price under `key`, or the str 'N/A' the code falls back to. */
  function PriceOr(plan: seq<Entry>, key: string): Value
  {
    GetIn(plan, key, PStr("N/A"))
  }

  /** join_text, line by line. */
  function JoinLines(day: string, month: string, nextMonth: string,
                     discount: string, original: string, total: string): seq<string>
  {
    [ "We've defaulted the start date to the first available date you can join this gym:\n",
      day + " " + month + "\n\n",
      "Activation Fee: £" + Fixed2(ActivationFeePence) + "\n",
      "For the remainder of this month: £" + Fixed2(MonthlyRemainderPence) + "\n",
      "Monthly direct debit (Starting 1st " + nextMonth + " 2025): ",
      "£" + discount + "\n",
      "(Just £" + discount + " per month for 3 months, then ",
      "£" + original + " per month from Jan 2026)\n",
      "To pay today: £" + total]
  }

  /**
   * join_text for the gym document `data` on the date `today`. The start day and month
   * come from today, the month of the first direct debit from today.replace(day=28)
   * plus four days; both prices go through format(x, '.2f').
   */
  function JoinText(data: seq<Entry>, today: Date): Result<string>
    requires ValidDate(today)
  {
    var twelve :- TwelveMonthPlan(data);
    var total := ActivationFeePence + MonthlyRemainderPence;
    // Every month has a 28th, so this replace never raises.
    var the28th := ReplaceDay(today, 28).value;
    var later :- AddDays(the28th, 4);
    match twelve
    case PDict(plan) =>
      var discount :- FormatFixed2(PriceOr(plan, "discountPrice"));
      var original :- FormatFixed2(PriceOr(plan, "originalPrice"));
      Ok(Concat(JoinLines(NatToString(today.day), MonthName(today.month), MonthName(later.month),
                          discount, original, Fixed2(total))))
    case _ => Err(AttributeError)
  }

  /**
   * The breakdown can be built exactly when the 12-month plan is a dict holding numeric
   * discountPrice and originalPrice that format(.., '.2f') accepts (a missing price is
   * 'N/A', which it rejects, and an int float() cannot convert raises) and today is not in
   * December of the last year Python can represent.
   */
  lemma JoinTextDefinedIff(data: seq<Entry>, today: Date)
    requires ValidDate(today)
    ensures JoinText(data, today).Ok? <==>
      && TwelveMonthPlan(data).Ok? && TwelveMonthPlan(data).value.PDict?
      && Formattable(PriceOr(TwelveMonthPlan(data).value.entries, "discountPrice"))
      && Formattable(PriceOr(TwelveMonthPlan(data).value.entries, "originalPrice"))
      && !(today.year == MaxYear && today.month == 12)
  {
    NextMonthFromThe28th(today);
  }

  /** The amount to pay today is the activation fee 29.00 plus the remainder 31.85: 60.85. */
  lemma PayTodayIs6085()
    ensures ActivationFeePence + MonthlyRemainderPence == 6085
    ensures Fixed2(ActivationFeePence) == "29.00" && Fixed2(MonthlyRemainderPence) == "31.85"
    ensures Fixed2(ActivationFeePence + MonthlyRemainderPence) == "60.85"
  {
    assert NatToString(29) == "29" && NatToString(31) == "31" && NatToString(60) == "60";
    assert Fixed2(2900) == "29" + "." + "00";
    assert Fixed2(3185) == "31" + "." + "85";
    assert Fixed2(6085) == "60" + "." + "85";
  }

  /**
   * A breakdown that can be built names today's day and month, names the month after
   * this one, under another name, as the start of the direct debit, shows both prices to
   * two decimals and ends with the total 60.85.
   */
  lemma JoinTextIsBreakdown(data: seq<Entry>, today: Date)
    requires ValidDate(today)
    requires JoinText(data, today).Ok?
    ensures TwelveMonthPlan(data).Ok? && TwelveMonthPlan(data).value.PDict?
    ensures
      var plan := TwelveMonthPlan(data).value.entries;
      JoinText(data, today).value == Concat(JoinLines(
        NatToString(today.day), MonthName(today.month), MonthName(FollowingMonth(today.month)),
        FormatFixed2(PriceOr(plan, "discountPrice")).value,
        FormatFixed2(PriceOr(plan, "originalPrice")).value,
        "60.85"))
    ensures MonthName(FollowingMonth(today.month)) != MonthName(today.month)
  {
    FollowingMonthNamedOtherwise(today.month);
    NextMonthFromThe28th(today);
    JoinTextDefinedIff(data, today);
    PayTodayIs6085();
  }

  /**
   * The breakdown shows the start day and month on their own line, names the month of the
   * first direct debit, and ends "To pay today: £" with the total.
   */
  lemma JoinLinesShown(day: string, month: string, nextMonth: string,
                       discount: string, original: string, total: string)
    ensures var text := Concat(JoinLines(day, month, nextMonth, discount, original, total));
      && Contains(text, day + " " + month + "\n\n")
      && Contains(text, "Monthly direct debit (Starting 1st " + nextMonth + " 2025): ")
      && Contains(text, "£" + discount + "\n")
      && IsInfixAt(text, "To pay today: £" + total, |text| - |"To pay today: £" + total|)
  {
    var lines := JoinLines(day, month, nextMonth, discount, original, total);
    ConcatInfix(lines, 1);
    ConcatInfix(lines, 4);
    ConcatInfix(lines, 5);
    ConcatEndsWithLast(lines);
  }

  // ---- The confirmation of a saved quote

  /** confirmation_message for the shown name, contact time and e-mail address. */
  function Confirmation(name: string, time: string, email: string): string
  {
    Concat([
      "Thank you, ", name, "! We have received your request.\n",
      "A team member will be in touch with you at ", time, " at ", email,
      " to provide a tailored quote.\n",
      "We look forward to speaking with you!"])
  }

  /** The confirmation repeats the name, the contact time and the e-mail address verbatim. */
  lemma ConfirmationEchoes(name: string, time: string, email: string)
    ensures Contains(Confirmation(name, time, email), name)
    ensures Contains(Confirmation(name, time, email), time)
    ensures Contains(Confirmation(name, time, email), email)
  {
    var parts := [
      "Thank you, ", name, "! We have received your request.\n",
      "A team member will be in touch with you at ", time, " at ", email,
      " to provide a tailored quote.\n",
      "We look forward to speaking with you!"];
    ConcatInfix(parts, 1);
    ConcatInfix(parts, 4);
    ConcatInfix(parts, 6);
  }
}
