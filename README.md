# Gym chatbot webhook: a Dafny model

The repository is a Dialogflow CX fulfillment webhook for a gym chatbot. Dialogflow CX posts
a request to the webhook. The request names the intent that fired and carries the session
parameters collected so far. The webhook picks one of five branches by the intent's display
name and answers with an ordered list of messages: text blocks and chip payloads. Two
branches read the one gym document in the Firestore "gyms" collection:

- the pricing summary reads the plan tree `membership.anytime.{12MonthCommitment, promotion, 1MonthRolling}`;
- the join-today breakdown reads the same 12-month plan.

The quote-form branch normalises three parameters with `normalize_param`. It then adds a lead
to the "quotes" collection and confirms it. Any exception raised on the way leaves the default
apology in place.

The model has seven modules, one file each:

- `Numerals` (numerals.dfy) renders numbers as Python does: `str(int)`, `f"{i:02d}"`,
  `format(x, '.2f')` and the float repr of a price.
- `Values` (values.dfy) holds the JSON/Firestore values as a Python value datatype, with an
  exception as `Err`. It also defines the built-ins the webhook applies: `dict.get`, `str`,
  `repr`, truthiness, `int()` and `format`.
- `Strings` (strings.dfy) defines concatenation of pieces and substring facts about it.
- `Calendar` (calendar.dfy) covers the part of `datetime.date` the join-now reply uses:
  `replace(day=28)`, adding four days, and the month names.
- `Params` (params.dfy) models `normalize_param`.
- `Replies` (replies.dfy) builds the fixed texts, the pricing summary, the join-today
  breakdown and the quote confirmation.
- `Webhook` (webhook.dfy) has:
  - the dispatch, as a function `Dispatch` from the request, the gyms collection, whether the
    add raises, today's date and the current time, to the messages and the saved quote;
  - a `Firestore` class whose `quotes` field is the append-only quote collection;
  - the imperative handler `HandleWebhook`, proved against `Dispatch`.

The dispatcher itself is imperative: it sets a response, overwrites it in a branch and keeps
the default when a step raises. It is therefore a method over a `Firestore` object.
The text builders, `normalize_param` and the Python built-ins are expressions, so they are
functions.

In these places the code does something other than a quick reading suggests. The model follows the code.

- A quote is saved only when the intent is `SubmitQuoteFormIntent`. Having all three
  parameters under another intent does not trigger a submission.
- The pricing summary shows prices as `str()` of the stored value, for example `GBP 30.0`,
  not to two decimals. Only the join-today breakdown formats to two decimals.
- A time-of-day object is rendered only when it has both `hours` and `minutes`. With only
  one of them, it falls through to `str()` of the whole dict, so the default of 0 for a
  missing field is never used.
- The join-now reply and the quote confirmation carry no chip payload. The view-pricing reply
  carries exactly one.
- The parameters are read before the branch is chosen. A malformed `sessionInfo` therefore
  gives the default response for every intent.
- `normalize_param` returns a name object's `original` or `name` field as it is, and that
  value need not be a string. The saved record keeps it as it is, and the confirmation
  shows its `str()`.
- The join-today breakdown raises when the 12-month plan has no `discountPrice` or
  `originalPrice`. Formatting the fallback `'N/A'` with `.2f` raises, so the reply is the
  default apology, not a text with "N/A".
- The years "2025" and "Jan 2026" in the breakdown, and "2026" in the membership text, are
  fixed text, and the model keeps them verbatim.

## Model

| member | source | states |
|---|---|---|
| Numerals.ZeroPad2 | main.py:49 | definition of `f"{i:02d}"`; its properties are stated by Numerals.ZeroPad2TwoDigits and Numerals.ZeroPad2Wide |
| Numerals.Fixed2 | main.py:154-160 | definition of `format(x, '.2f')` on a hundredths amount; its properties are stated by Numerals.Fixed2Value, Numerals.Fixed2Negative and Replies.PayTodayIs6085 |
| Numerals.FloatRepr | main.py:115 | definition of the repr of a hundredths float; related to '.2f' by Numerals.FloatReprTrimsFixed2 |
| Values.Str | main.py:51-52 | definition of str(); its properties are stated by Values.ReprOfPlainStr, Values.ParseIntOfIntToString and Params.NonDictIsStr |
| Values.Repr | main.py:51-52 | definition of repr(); its string escaping is pinned down by Values.EscapeCharPlain, Values.EscapeKeepsPlain and Values.ReprOfPlainStr |
| Values.Truthy | main.py:118 | definition of Python truthiness; the promotion test on it is stated by Replies.PromotionMarkerIffActive |
| Calendar.MonthName | main.py:148-149 | definition of `%B`; its properties are stated by Calendar.MonthNamesDistinct and Calendar.FollowingMonthNamedOtherwise |
| Params.NormalizeParam | main.py:38-52 | definition of normalize_param; its branches are stated by Params.OriginalWins, Params.NameWithoutOriginal, Params.ClockObjectRendersHHMM, Params.HalfClockFallsThrough, Params.NonDictIsStr and Params.NormalizeFailsOnlyOnBadClock |
| Replies.PricingSummary | main.py:105-124 | definition of pricing_info; its properties are stated by Replies.PricingSummaryDefinedIffShaped, Replies.PromotionMarkerIffActive, Replies.NoMembershipShowsDefaults and Webhook.BuildPricingInfo |
| Replies.JoinText | main.py:142-161 | definition of join_text; its properties are stated by Replies.JoinTextDefinedIff, Replies.JoinTextIsBreakdown and Replies.JoinLinesShown |
| Replies.Confirmation | main.py:192-196 | definition of confirmation_message; its property is stated by Replies.ConfirmationEchoes |
| Webhook.SubmitOutcome | main.py:179-202 | definition of the quote-form branch; its outcomes are stated by Webhook.SubmitOutcomes, Webhook.SubmitSaves and Webhook.BadQuoteParameterFallsBack |
| Webhook.Respond | main.py:73-202 | definition of the body of the outer try; its branches are stated by the Webhook reply lemmas below |
| Webhook.Dispatch | main.py:64-207 | definition of the reply with the catch-all; its properties are stated by Webhook.AlwaysReplies, Webhook.OnlySubmitSaves and the reply lemmas, and Webhook.HandleWebhook is proved against it |
| Numerals.NatToString | main.py:49 | str(n) of a non-negative int is one or more digits, has one digit exactly when n < 10, and starts with 0 only for 0 |
| Numerals.NatToStringValue | main.py:49 | the digits of str(n) read back as n |
| Numerals.ZeroPad2TwoDigits | main.py:49 | every clock value from 0 to 99 pads to exactly two digits that read back as the value |
| Numerals.ZeroPad2Wide | main.py:49 | for values of two or more digits, and for negative ones, the `02d` padding adds nothing to str() |
| Numerals.Fixed2Value | main.py:154-160 | format(x, '.2f') writes whole units, a point and exactly two decimals, and they read back as the amount |
| Numerals.Fixed2Negative | main.py:157-159 | a negative amount is formatted as the positive one with a minus sign in front |
| Numerals.FloatReprTrimsFixed2 | main.py:115 | repr of a price float is its two-decimal form with a trailing zero dropped, and it ends in 0 only for a whole amount |
| Values.FindFirst | main.py:41-46 | a key is in a dict exactly when some entry has it, and the lookup gives the first such entry's value |
| Values.Get | main.py:75 | `.get` raises AttributeError exactly when the receiver is not a dict |
| Values.ParseIntOfIntToString | main.py:47-48 | int() of str(i) gives back i, as a string and as the str() of an int value |
| Values.EscapeCharPlain | main.py:51-52 | repr leaves a character inside quotes unchanged exactly when it is plain (not a backslash, the quote, a control character or 0x7F to 0xA0), and otherwise writes at least two characters |
| Values.EscapeKeepsPlain | main.py:51-52 | repr's escaping never shortens a string, and leaves it unchanged exactly when all its characters are plain |
| Values.ReprOfPlainStr | main.py:51-52 | repr of a str of plain characters is that str between single quotes, while str() of it is the str itself |
| Values.ToInt | main.py:47-48 | int() raises exactly for None, lists, dicts and strings that are not integer literals, and is the identity on ints |
| Values.FormatFixed2 | main.py:154-159 | format(v, '.2f') succeeds exactly on bools, floats and ints below 2^1024 - 2^970, raises OverflowError on larger ints (float() cannot convert them) and ValueError on a str such as 'N/A' |
| Calendar.DaysInMonth | main.py:149 | every month has 28 to 31 days, and February has 29 exactly in leap years |
| Calendar.ReplaceDay | main.py:149 | replace(day=d) keeps the year and month and succeeds exactly when the month has day d |
| Calendar.NextDay | main.py:149 | the day after a valid date is a valid date, and it raises OverflowError exactly on 31 December 9999 |
| Calendar.NextDayCounts | main.py:149 | the next day is the date whose ordinal (as date.toordinal() counts) is one more |
| Calendar.AddDays | main.py:149 | adding days to a valid date gives a valid date, and its only error is OverflowError |
| Calendar.AddDaysCounts | main.py:149 | adding n days gives the date whose ordinal is n more, and raises exactly when that ordinal lies past 31 December 9999 |
| Calendar.NextMonthFromThe28th | main.py:149 | the 28th plus four days falls in the following month (January after December, in the next year) on day 32 minus the month's length, and raises OverflowError only in December 9999 |
| Calendar.MonthNamesDistinct | main.py:148-149 | two month numbers have the same name exactly when they are the same month |
| Calendar.FollowingMonthNamedOtherwise | main.py:148-149 | the following month's name always differs from this month's |
| Params.OriginalWins | main.py:39-42 | a dict with an "original" field normalises to that field's value unchanged, whatever else it holds |
| Params.NameWithoutOriginal | main.py:43-44 | without "original", a "name" field comes back unchanged, even beside clock fields |
| Params.ClockObjectRendersHHMM | main.py:46-49 | a clock object with fields from 0 to 99 renders as five characters HH:MM whose halves read back as the hours and the minutes |
| Params.NineFive | main.py:46-49 | {hours: 9, minutes: 5} normalises to "09:05" |
| Params.Midnight | main.py:46-49 | {hours: 0, minutes: 0} normalises to "00:00" |
| Params.HalfPastTwoAsFloats | main.py:46-49 | the float clock fields Dialogflow sends, 14.0 and 30.0, normalise to "14:30" |
| Params.HalfClockFallsThrough | main.py:50-51 | a dict with neither name field and fewer than both clock fields normalises to its str() |
| Params.NonDictIsStr | main.py:52 | a non-dict normalises to its str(), and a str to itself |
| Params.MissingParameterShowsNone | main.py:52 | a missing parameter, None, normalises to "None" |
| Params.NormalizeFailsOnlyOnBadClock | main.py:38-52 | normalize_param raises exactly when the value is a clock object with a field int() rejects |
| Replies.ShownDefault | main.py:111-123 | a missing field shows its default, and a present one the str() of its value |
| Replies.PricingSummaryDefinedIffShaped | main.py:105-124 | the summary raises AttributeError exactly when membership, anytime or one of the three plans is present but not a dict |
| Replies.PromotionMarkerIffActive | main.py:118-121 | the text right after the 12-month part begins "   - Promotion: " exactly when the promotion is active |
| Replies.RollingTextStartsWithTwo | main.py:120-121 | the rolling part is non-empty and begins with the "2" of its numbered heading, so it cannot be mistaken for the promotion marker |
| Replies.TwelveMonthPriceShownAsStr | main.py:115 | a stored float price is shown as its repr, so 30.0 reads "GBP 30.0 per month" |
| Replies.TwelveMonthDefaults | main.py:111-116 | a 12-month plan and document without the fields show "this gym", "N/A", "GBP" and "month" |
| Replies.RollingDefaults | main.py:120-124 | a rolling plan without its fields shows "N/A", "GBP" and "month" |
| Replies.PromotionDefaults | main.py:118-119 | an active promotion without description or condition shows "N/A (N/A)" |
| Replies.NoMembershipShowsDefaults | main.py:105-124 | a document without membership data gives the summary of three empty plans, without a promotion line |
| Replies.JoinTextDefinedIff | main.py:142-161 | the breakdown can be built exactly when the 12-month plan is a dict whose two prices '.2f' accepts, and today is not in December 9999 |
| Replies.PayTodayIs6085 | main.py:143-145 | the activation fee shows 29.00, the remainder 31.85 and their sum 60.85 |
| Replies.JoinTextIsBreakdown | main.py:146-161 | a breakdown that can be built names today's day and month, then the following month under a different name, both prices to two decimals and the total 60.85 |
| Replies.JoinLinesShown | main.py:151-161 | the breakdown shows the start day and month on their own line, names the first direct-debit month, and ends with "To pay today: £" and the total |
| Replies.ConfirmationEchoes | main.py:192-196 | the confirmation repeats the name, the contact time and the e-mail address verbatim |
| Webhook.NonObjectRequestFallsBack | main.py:73-75 | a request that is not a JSON object gets the default response |
| Webhook.MalformedRequestFallsBack | main.py:75-77 | an intentInfo or sessionInfo that is not an object gives the default response, whatever the intent |
| Webhook.MissingIntentNameIsEmpty | main.py:75 | without intentInfo, or with an intentInfo object lacking displayName, the intent name is the empty string |
| Webhook.UnrecognisedIntentFallsBack | main.py:64-71 | any other intent name gets exactly the default apology, and nothing is saved |
| Webhook.MembershipReply | main.py:80-96 | the membership reply is the membership text, then the chips "View Pricing Details" and "Get a Quote" |
| Webhook.PricingCardCases | main.py:100-129 | the pricing card is the offline text without a client, the not-found text without the gym document, and otherwise the summary, which succeeds exactly on a well-shaped document |
| Webhook.ViewPricingTwoMessages | main.py:99-133 | the view-pricing reply is the card and then the chips "Get a Quote" and "Join now", or the default response when the summary raises |
| Webhook.JoinCardCases | main.py:137-166 | the join-now text is the offline text, the not-found text or the breakdown of the gym document |
| Webhook.JoinNowOneMessage | main.py:136-166 | the join-now reply is one text block and no chips, or the default response when the breakdown raises |
| Webhook.GetQuoteReply | main.py:169-176 | the quote reply is the prompt asking for name, e-mail address and contact time |
| Webhook.SubmitOutcomes | main.py:179-202 | without a client the offline text, when the add raises the error text, and otherwise the normalised name, e-mail and time are saved with the submission time and confirmed with a text containing all three |
| Webhook.BadQuoteParameterFallsBack | main.py:180-182 | a quote parameter normalize_param cannot render gives the default response, and nothing is saved |
| Webhook.SubmitSaves | main.py:184-197 | a form that normalises, with a client whose add succeeds, saves exactly those three values and answers with their confirmation |
| Webhook.OnlySubmitSaves | main.py:179-202 | a quote is saved only for the quote-form intent with a client whose add succeeds |
| Webhook.AlwaysReplies | main.py:64-207 | every reply has at least one block, and the first is a text message |
| Webhook.AlexFormNormalised | main.py:180-182 | the form {name: {original: "Alex"}, email_address: "a@b.com", contact_time: {hours: 14.0, minutes: 30.0}} normalises to "Alex", "a@b.com" and "14:30" |
| Webhook.AlexAtHalfPastTwo | main.py:179-197 | Alex's submission saves "Alex", "a@b.com" and "14:30" and confirms with them |
| Webhook.Firestore.AddQuote | main.py:186-191 | adding a quote appends the record to the quotes collection and changes nothing else |
| Webhook.BuildPricingInfo | main.py:105-124 | building the text with `+=` step by step gives exactly the pricing summary: the six 12-month lines, the promotion line when active, then the rolling lines |
| Webhook.HandleWebhook | main.py:64-207 | the handler answers with exactly the messages of the dispatch, appends to the quotes collection exactly the record the dispatch saves, and leaves the gyms collection unchanged |

## Left out

- Flask is not modelled: the route, `request.get_json` and `jsonify`. The request is the parsed JSON value, and the response is the list of messages as a `Message` datatype, not its JSON text.
- Firebase start-up and credentials are not modelled. The `db` global is a `Firestore?` parameter, with `null` for no client; `Dispatch` takes the gyms as an `Option`.
- Logging has no effect on the reply and is left out.
- The clock is not modelled. `datetime.date.today()` and `datetime.datetime.now()` are the parameters `today` and `now`.
- `Webhook.HandleWebhook`: an add to Firestore that raises is the boolean parameter `addFails`. Such an add is assumed to write nothing. Network faults and a raising `doc_ref.get()` are not modelled.
- `Replies.JoinTextIsBreakdown`: the `%-d` / `%#d` day field depends on the operating system. The model shows the day without padding, which is what both spellings give on their platforms.
- `Replies.JoinText`: `"%B"` is modelled as the English month names of the C locale.
- `Numerals.FloatReprTrimsFixed2`: floats are modelled as whole hundredths (`PFloat(cents)`). This covers prices with at most two decimals and whole-number clock fields. Floats with more decimals, exponent notation for magnitudes of 1e16 and above, and rounding are not modelled.
- `Values.ParseInt`: `int()` of a str is modelled for surrounding whitespace below U+00A1 (the characters `str.isspace()` accepts there, `\x1c` to `\x1f`, `\x85` and `\xa0` among them), an optional sign and ASCII digits. Underscores between digits, non-ASCII digits and whitespace above U+00A0 are not modelled.
- `Values.EscapeChar`: repr escapes are modelled for control characters and for 0x7F to 0xA0. Python's further escaping of non-printable characters above 0xA0 is not modelled.
- Dicts are sequences of entries in insertion order. A `PDict` with a repeated key stands for no Python dict: a lookup in it sees the first entry and its `Repr` prints both, while Flask's JSON parser would have kept only the last value.
- Firestore document values are modelled as JSON values (None, bool, int, float, str, list, dict). Timestamps, references and other Firestore types inside a gym document are not modelled.
- `Values.FormatFixed2`: an int below 2^1024 - 2^970 is formatted exactly. Python first converts it with `float()`, so an int beyond 2^53 that no float holds shows the digits of the nearest float instead (`format(10**17 + 1, '.2f')` is `'100000000000000000.00'`). The overflow from 2^1024 - 2^970 on is modelled.
- `Numerals.NatToString`: Python 3.11 and later raise ValueError for `str()` of an int with more than 4300 digits, and `int()` of such a string (`Values.ParseInt`) too. The model has no such limit, so the round trip `Values.ParseIntOfIntToString` holds for every int.
