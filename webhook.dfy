/**
 * The webhook endpoint: it reads the intent's display name and the session parameters
 * from the parsed request, picks one of five branches by that name, and answers with an
 * ordered list of message blocks; the quote-form branch also adds a lead to the
 * "quotes" collection. Any exception raised on the way leaves the default apology.
 */
module Webhook {
  import opened Values
  import opened Calendar
  import opened Params
  import opened Replies
  import opened Strings

  /** A block of a fulfillment response: a text message or a chips payload. */
  datatype Message = Text(text: string) | Chips(options: seq<string>)

  /** A document of the "quotes" collection. */
  datatype QuoteRecord = QuoteRecord(name: Value, email: Value, contactTime: Value, submittedAt: DateTime)

  /** The messages of a reply, and the quote it added to the store, if any. */
  datatype Outcome = Outcome(messages: seq<Message>, saved: Option<QuoteRecord>)

  const PricingMembershipIntent := "PricingMembershipIntent"
  const ViewPricingIntent := "ViewPricingIntent"
  const JoinNowIntent := "JoinNowIntent"
  const GetQuoteIntent := "GetQuoteIntent"
  const SubmitQuoteFormIntent := "SubmitQuoteFormIntent"

  const MembershipChips := ["View Pricing Details", "Get a Quote"]
  const PricingChips := ["Get a Quote", "Join now"]

  /** The default response, left in place when no branch matches or an exception is raised. */
  function Fallback(): seq<Message>
  {
    [Text(FallbackText)]
  }

  /** The intent's display name; an empty string when intentInfo or displayName is missing. */
  function IntentName(req: Value): Result<Value>
  {
    var info :- Get(req, "intentInfo", PDict([]));
    Get(info, "displayName", PStr(""))
  }

  /** The session parameters; an empty dict when sessionInfo or parameters is missing. */
  function Parameters(req: Value): Result<Value>
  {
    var session :- Get(req, "sessionInfo", PDict([]));
    Get(session, "parameters", PDict([]))
  }

  /** One of the five display names the webhook answers. */
  predicate Recognised(intent: Value)
  {
    intent in {PStr(PricingMembershipIntent), PStr(ViewPricingIntent), PStr(JoinNowIntent),
               PStr(GetQuoteIntent), PStr(SubmitQuoteFormIntent)}
  }

  /**
   * The text block of the view-pricing reply for the "gyms" collection (None when there
   * is no database client).
   */
  function PricingCard(gyms: Option<map<string, seq<Entry>>>): Result<string>
  {
    match gyms
    case None => Ok(PricingOfflineText)
    case Some(g) => if GymId in g then PricingSummary(g[GymId]) else Ok(PricingNotFoundText)
  }

  /** The one text block of the join-now reply. */
  function JoinCard(gyms: Option<map<string, seq<Entry>>>, today: Date): Result<string>
    requires ValidDate(today)
  {
    match gyms
    case None => Ok(JoinOfflineText)
    case Some(g) => if GymId in g then JoinText(g[GymId], today) else Ok(JoinNotFoundText)
  }

  /** The normalised form parameter `key`; None when the form lacks it. */
  function Param(parameters: Value, key: string): Result<Value>
  {
    var v :- Get(parameters, key, PNone);
    NormalizeParam(v)
  }

  /**
   * The quote-form branch: the three parameters are normalised first; then, with a
   * database, the lead is added (or the add raises, `addFails`) and confirmed.
   */
  function SubmitOutcome(parameters: Value, connected: bool, addFails: bool, now: DateTime): Result<Outcome>
  {
    var name :- Param(parameters, "name");
    var email :- Param(parameters, "email_address");
    var time :- Param(parameters, "contact_time");
    if !connected then Ok(Outcome([Text(SaveOfflineText)], None))
    else if addFails then Ok(Outcome([Text(SaveFailedText)], None))
    else
      Ok(Outcome([Text(Confirmation(Str(name), Str(time), Str(email)))],
                 Some(QuoteRecord(name, email, time, now))))
  }

  /**
   * What the body of the outer try computes: the reply of the branch the intent name
   * picks, or the exception one of its steps raises.
   */
  function Respond(req: Value, gyms: Option<map<string, seq<Entry>>>, addFails: bool,
                   today: Date, now: DateTime): Result<Outcome>
    requires ValidDate(today)
  {
    var intent :- IntentName(req);
    var parameters :- Parameters(req);
    if intent == PStr(PricingMembershipIntent) then
      Ok(Outcome([Text(MembershipText), Chips(MembershipChips)], None))
    else if intent == PStr(ViewPricingIntent) then
      var card :- PricingCard(gyms);
      Ok(Outcome([Text(card), Chips(PricingChips)], None))
    else if intent == PStr(JoinNowIntent) then
      var text :- JoinCard(gyms, today);
      Ok(Outcome([Text(text)], None))
    else if intent == PStr(GetQuoteIntent) then
      Ok(Outcome([Text(QuotePromptText)], None))
    else if intent == PStr(SubmitQuoteFormIntent) then
      SubmitOutcome(parameters, gyms.Some?, addFails, now)
    else Ok(Outcome(Fallback(), None))
  }

  /** The reply, with the outer catch-all: an exception leaves the default response and saves nothing. */
  function Dispatch(req: Value, gyms: Option<map<string, seq<Entry>>>, addFails: bool,
                    today: Date, now: DateTime): Outcome
    requires ValidDate(today)
  {
    match Respond(req, gyms, addFails, today, now)
    case Ok(outcome) => outcome
    case Err(_) => Outcome(Fallback(), None)
  }

  /** The Firestore database the webhook reads gyms from and adds quotes to. */
  class Firestore {
    /** The "gyms" collection: the fields of each document, by document id. */
    var gyms: map<string, seq<Entry>>
    /** The "quotes" collection, in the order the documents were added. */
    var quotes: seq<QuoteRecord>

    constructor (gyms: map<string, seq<Entry>>)
      ensures this.gyms == gyms && quotes == []
    {
      this.gyms := gyms;
      quotes := [];
    }

    /** Adds a document to the "quotes" collection. */
    method AddQuote(record: QuoteRecord)
      modifies this`quotes
      ensures quotes == old(quotes) + [record]
    {
      quotes := quotes + [record];
    }
  }

  /** The gyms a database client sees; None when there is no client. */
  function GymsOf(db: Firestore?): Option<map<string, seq<Entry>>>
    reads db
  {
    if db == null then None else Some(db.gyms)
  }

  /** The records a reply adds to the "quotes" collection. */
  function SavedRecords(o: Outcome): seq<QuoteRecord>
  {
    match o.saved
    case Some(r) => [r]
    case None => []
  }

  /**
   * pricing_info, built as the code builds it: the 12-month part, then `+=` the
   * promotion line when the promotion is active, then `+=` the rolling part.
   */
  method BuildPricingInfo(data: seq<Entry>) returns (r: Result<string>)
    ensures r == PricingSummary(data)
  {
    PricingSummaryDefinedIffShaped(data);
    var anytime := Anytime(data);
    if anytime.Err? || !anytime.value.PDict? {
      return Err(AttributeError);
    }
    var plans := anytime.value.entries;
    var twelve := Plan(plans, "12MonthCommitment");
    var rolling := Plan(plans, "1MonthRolling");
    var promotion := Plan(plans, "promotion");
    if !twelve.PDict? || !promotion.PDict? || !rolling.PDict? {
      return Err(AttributeError);
    }
    var info := Concat(TwelveMonthLines(data, twelve.entries));
    if Truthy(GetIn(promotion.entries, "active", PNone)) {
      info := info + PromotionLine(Shown(promotion.entries, "description", "N/A"),
                                   Shown(promotion.entries, "condition", "N/A"));
    }
    info := info + Concat(RollingLines(rolling.entries));
    PricingSummaryOfShaped(data);
    PromotionLineIffActive(data, twelve.entries, promotion.entries, rolling.entries);
    return Ok(info);
  }

  /**
   * The webhook: start from the default response, overwrite it in the branch the intent
   * name picks, and keep the default when a step raises. A saved quote is appended to
   * db.quotes, and nothing else in the database changes.
   */
  method HandleWebhook(req: Value, db: Firestore?, addFails: bool, today: Date, now: DateTime)
    returns (messages: seq<Message>)
    requires ValidDate(today)
    modifies db
    ensures var o := Dispatch(req, old(GymsOf(db)), addFails, today, now);
      && messages == o.messages
      && (db != null ==> db.quotes == old(db.quotes) + SavedRecords(o) && db.gyms == old(db.gyms))
  {
    messages := Fallback();
    var intent := IntentName(req);
    if intent.Err? {
      return;
    }
    var parameters := Parameters(req);
    if parameters.Err? {
      return;
    }
    if intent.value == PStr(PricingMembershipIntent) {
      messages := [Text(MembershipText), Chips(MembershipChips)];
    } else if intent.value == PStr(ViewPricingIntent) {
      var card: string;
      if db != null {
        if GymId in db.gyms {
          var info := BuildPricingInfo(db.gyms[GymId]);
          if info.Err? {
            return;
          }
          card := info.value;
        } else {
          card := PricingNotFoundText;
        }
      } else {
        card := PricingOfflineText;
      }
      messages := [Text(card), Chips(PricingChips)];
    } else if intent.value == PStr(JoinNowIntent) {
      if db != null {
        if GymId in db.gyms {
          var text := JoinText(db.gyms[GymId], today);
          if text.Err? {
            return;
          }
          messages := [Text(text.value)];
        } else {
          messages := [Text(JoinNotFoundText)];
        }
      } else {
        messages := [Text(JoinOfflineText)];
      }
    } else if intent.value == PStr(GetQuoteIntent) {
      messages := [Text(QuotePromptText)];
    } else if intent.value == PStr(SubmitQuoteFormIntent) {
      var name := Param(parameters.value, "name");
      if name.Err? {
        return;
      }
      var email := Param(parameters.value, "email_address");
      if email.Err? {
        return;
      }
      var time := Param(parameters.value, "contact_time");
      if time.Err? {
        return;
      }
      if db != null {
        if addFails {
          messages := [Text(SaveFailedText)];
        } else {
          db.AddQuote(QuoteRecord(name.value, email.value, time.value, now));
          messages := [Text(Confirmation(Str(name.value), Str(time.value), Str(email.value)))];
        }
      } else {
        messages := [Text(SaveOfflineText)];
      }
    }
  }

  // ---- What every reply satisfies

  /** A request that is not a JSON object (get_json gave None, say) gets the default response. */
  lemma NonObjectRequestFallsBack(req: Value, gyms: Option<map<string, seq<Entry>>>, addFails: bool,
                                  today: Date, now: DateTime)
    requires ValidDate(today)
    requires !req.PDict?
    ensures Dispatch(req, gyms, addFails, today, now) == Outcome(Fallback(), None)
  {
  }

  /**
   * When intentInfo or sessionInfo is present but not an object, the .get on it raises:
   * the default response, even for a recognised intent, because the parameters are read
   * before the branch is chosen.
   */
  lemma MalformedRequestFallsBack(req: Value, gyms: Option<map<string, seq<Entry>>>, addFails: bool,
                                  today: Date, now: DateTime)
    requires ValidDate(today)
    requires IntentName(req).Err? || Parameters(req).Err?
    ensures Dispatch(req, gyms, addFails, today, now) == Outcome(Fallback(), None)
  {
  }

  /** Without intentInfo (or without its displayName) the intent name is the empty string. */
  lemma MissingIntentNameIsEmpty(entries: seq<Entry>)
    ensures Find(entries, "intentInfo").None? ==> IntentName(PDict(entries)) == Ok(PStr(""))
    ensures Find(entries, "intentInfo").Some? && Find(entries, "intentInfo").value.PDict?
            && Find(Find(entries, "intentInfo").value.entries, "displayName").None?
            ==> IntentName(PDict(entries)) == Ok(PStr(""))
  {
  }

  /**
   * An intent name that is not one of the five (the empty default among them) gets exactly
   * the default apology, and nothing is saved.
   */
  lemma UnrecognisedIntentFallsBack(req: Value, gyms: Option<map<string, seq<Entry>>>, addFails: bool,
                                    today: Date, now: DateTime)
    requires ValidDate(today)
    requires IntentName(req).Ok? && !Recognised(IntentName(req).value)
    ensures Dispatch(req, gyms, addFails, today, now) == Outcome(Fallback(), None)
    ensures Fallback() == [Text("I'm sorry, I didn't understand that. Could you please rephrase?")]
  {
  }

  /** The membership reply: the membership card, then the chips "View Pricing Details" and "Get a Quote". */
  lemma MembershipReply(req: Value, gyms: Option<map<string, seq<Entry>>>, addFails: bool,
                        today: Date, now: DateTime)
    requires ValidDate(today)
    requires IntentName(req) == Ok(PStr(PricingMembershipIntent)) && Parameters(req).Ok?
    ensures Dispatch(req, gyms, addFails, today, now)
      == Outcome([Text(MembershipText), Chips(["View Pricing Details", "Get a Quote"])], None)
  {
  }

  /** The quote reply asks for the name, the e-mail address and a contact time. */
  lemma GetQuoteReply(req: Value, gyms: Option<map<string, seq<Entry>>>, addFails: bool,
                      today: Date, now: DateTime)
    requires ValidDate(today)
    requires IntentName(req) == Ok(PStr(GetQuoteIntent)) && Parameters(req).Ok?
    ensures Dispatch(req, gyms, addFails, today, now) == Outcome([Text(QuotePromptText)], None)
  {
  }

  /**
   * The view-pricing card: the offline text without a database client, the not-found
   * text without the gym document, and otherwise the pricing summary, which raises
   * exactly when the document's plan data is not made of dicts.
   */
  lemma PricingCardCases(gyms: Option<map<string, seq<Entry>>>)
    ensures gyms.None? ==> PricingCard(gyms) == Ok("Sorry, the database is not connected.")
    ensures gyms.Some? && GymId !in gyms.value ==>
      PricingCard(gyms) == Ok("Sorry, I could not find pricing details for this gym.")
    ensures gyms.Some? && GymId in gyms.value ==>
      && PricingCard(gyms) == PricingSummary(gyms.value[GymId])
      && (PricingCard(gyms).Ok? <==> PricingShaped(gyms.value[GymId]))
  {
    if gyms.Some? && GymId in gyms.value {
      PricingSummaryDefinedIffShaped(gyms.value[GymId]);
    }
  }

  /**
   * The view-pricing reply is exactly two blocks, the card and then the chips "Get a Quote"
   * and "Join now", in all three cases of the card; only a summary that raises leaves the
   * default response instead.
   */
  lemma ViewPricingTwoMessages(req: Value, gyms: Option<map<string, seq<Entry>>>, addFails: bool,
                               today: Date, now: DateTime)
    requires ValidDate(today)
    requires IntentName(req) == Ok(PStr(ViewPricingIntent)) && Parameters(req).Ok?
    ensures var o := Dispatch(req, gyms, addFails, today, now);
      && o.saved.None?
      && (PricingCard(gyms).Ok? ==>
            o.messages == [Text(PricingCard(gyms).value), Chips(["Get a Quote", "Join now"])])
      && (PricingCard(gyms).Err? ==> o.messages == Fallback())
  {
  }

  /**
   * The join-now card: the offline text without a database client, the not-found text
   * without the gym document, and otherwise the join-today breakdown.
   */
  lemma JoinCardCases(gyms: Option<map<string, seq<Entry>>>, today: Date)
    requires ValidDate(today)
    ensures gyms.None? ==> JoinCard(gyms, today) == Ok("Database not connected.")
    ensures gyms.Some? && GymId !in gyms.value ==> JoinCard(gyms, today) == Ok("Gym details not found.")
    ensures gyms.Some? && GymId in gyms.value ==> JoinCard(gyms, today) == JoinText(gyms.value[GymId], today)
  {
  }

  /** The join-now reply is one text block and no chips; a breakdown that raises leaves the default response. */
  lemma JoinNowOneMessage(req: Value, gyms: Option<map<string, seq<Entry>>>, addFails: bool,
                          today: Date, now: DateTime)
    requires ValidDate(today)
    requires IntentName(req) == Ok(PStr(JoinNowIntent)) && Parameters(req).Ok?
    ensures var o := Dispatch(req, gyms, addFails, today, now);
      && o.saved.None?
      && (JoinCard(gyms, today).Ok? ==> o.messages == [Text(JoinCard(gyms, today).value)])
      && (JoinCard(gyms, today).Err? ==> o.messages == Fallback())
  {
  }

  /**
   * The three outcomes of the quote form, once its three parameters are normalised: no
   * database client, an add that raises, and an add that succeeds, which saves exactly the
   * normalised name, e-mail address and contact time with the submission time, and
   * confirms with a text repeating all three.
   */
  lemma SubmitOutcomes(req: Value, gyms: Option<map<string, seq<Entry>>>, addFails: bool,
                       today: Date, now: DateTime)
    requires ValidDate(today)
    requires IntentName(req) == Ok(PStr(SubmitQuoteFormIntent)) && Parameters(req).Ok?
    requires Param(Parameters(req).value, "name").Ok?
    requires Param(Parameters(req).value, "email_address").Ok?
    requires Param(Parameters(req).value, "contact_time").Ok?
    ensures
      var name := Param(Parameters(req).value, "name").value;
      var email := Param(Parameters(req).value, "email_address").value;
      var time := Param(Parameters(req).value, "contact_time").value;
      var o := Dispatch(req, gyms, addFails, today, now);
      && (gyms.None? ==> o == Outcome([Text("Database not connected. Cannot save information.")], None))
      && (gyms.Some? && addFails ==>
            o == Outcome([Text("Error saving your information. Please try again later.")], None))
      && (gyms.Some? && !addFails ==>
            && o.saved == Some(QuoteRecord(name, email, time, now))
            && |o.messages| == 1 && o.messages[0].Text?
            && Contains(o.messages[0].text, Str(name))
            && Contains(o.messages[0].text, Str(email))
            && Contains(o.messages[0].text, Str(time)))
  {
    var name := Param(Parameters(req).value, "name").value;
    var email := Param(Parameters(req).value, "email_address").value;
    var time := Param(Parameters(req).value, "contact_time").value;
    ConfirmationEchoes(Str(name), Str(time), Str(email));
  }

  /** A quote parameter that normalize_param cannot render raises: the default response, nothing saved. */
  lemma BadQuoteParameterFallsBack(req: Value, gyms: Option<map<string, seq<Entry>>>, addFails: bool,
                                   today: Date, now: DateTime)
    requires ValidDate(today)
    requires IntentName(req) == Ok(PStr(SubmitQuoteFormIntent)) && Parameters(req).Ok?
    requires || Param(Parameters(req).value, "name").Err?
             || Param(Parameters(req).value, "email_address").Err?
             || Param(Parameters(req).value, "contact_time").Err?
    ensures Dispatch(req, gyms, addFails, today, now) == Outcome(Fallback(), None)
  {
  }

  /** Only a quote form submitted with a database client whose add succeeds saves anything. */
  lemma OnlySubmitSaves(req: Value, gyms: Option<map<string, seq<Entry>>>, addFails: bool,
                        today: Date, now: DateTime)
    requires ValidDate(today)
    requires Dispatch(req, gyms, addFails, today, now).saved.Some?
    ensures IntentName(req) == Ok(PStr(SubmitQuoteFormIntent))
    ensures gyms.Some? && !addFails
  {
  }

  /** Every reply has at least one block, and the first is a text message. */
  lemma AlwaysReplies(req: Value, gyms: Option<map<string, seq<Entry>>>, addFails: bool,
                      today: Date, now: DateTime)
    requires ValidDate(today)
    ensures var o := Dispatch(req, gyms, addFails, today, now);
      |o.messages| >= 1 && o.messages[0].Text?
  {
  }

  /**
   * A submitted form that normalises to a name, an e-mail address and a contact time, with
   * a database client whose add succeeds, saves those three with the submission time and
   * answers with their confirmation.
   */
  lemma SubmitSaves(req: Value, gyms: map<string, seq<Entry>>, today: Date, now: DateTime,
                    name: Value, email: Value, time: Value)
    requires ValidDate(today)
    requires IntentName(req) == Ok(PStr(SubmitQuoteFormIntent)) && Parameters(req).Ok?
    requires Param(Parameters(req).value, "name") == Ok(name)
    requires Param(Parameters(req).value, "email_address") == Ok(email)
    requires Param(Parameters(req).value, "contact_time") == Ok(time)
    ensures Dispatch(req, Some(gyms), false, today, now) == Outcome(
      [Text(Confirmation(Str(name), Str(time), Str(email)))], Some(QuoteRecord(name, email, time, now)))
  {
  }

  /** The parameters of a form filled in by Alex: a name object, an e-mail address and a clock object. */
  function AlexForm(): Value
  {
    PDict([
      Entry("name", PDict([Entry("original", PStr("Alex"))])),
      Entry("email_address", PStr("a@b.com")),
      Entry("contact_time", PDict([Entry("hours", PFloat(1400)), Entry("minutes", PFloat(3000))]))])
  }

  /** The request Dialogflow sends when Alex submits the quote form. */
  function AlexRequest(): Value
  {
    PDict([
      Entry("intentInfo", PDict([Entry("displayName", PStr(SubmitQuoteFormIntent))])),
      Entry("sessionInfo", PDict([Entry("parameters", AlexForm())]))])
  }

  /** Alex's form normalises to "Alex", "a@b.com" and "14:30". */
  lemma AlexFormNormalised()
    ensures IntentName(AlexRequest()) == Ok(PStr(SubmitQuoteFormIntent))
    ensures Parameters(AlexRequest()) == Ok(AlexForm())
    ensures Param(AlexForm(), "name") == Ok(PStr("Alex"))
    ensures Param(AlexForm(), "email_address") == Ok(PStr("a@b.com"))
    ensures Param(AlexForm(), "contact_time") == Ok(PStr("14:30"))
  {
    var req := AlexRequest();
    var form := AlexForm();
    var time := PDict([Entry("hours", PFloat(1400)), Entry("minutes", PFloat(3000))]);
    // Keys that differ in their first letter.
    assert "intentInfo"[0] != "sessionInfo"[0];
    assert "name"[0] != "email_address"[0] && "name"[0] != "contact_time"[0];
    assert "email_address"[0] != "contact_time"[0];
    assert Find(req.entries[1..], "sessionInfo") == Some(PDict([Entry("parameters", form)]));
    assert Find(form.entries[1..], "email_address") == Some(PStr("a@b.com"));
    assert Find(form.entries[1..][1..], "contact_time") == Some(time);
    assert Find(form.entries[1..], "contact_time") == Some(time);
    HalfPastTwoAsFloats();
  }

  /** Alex's submission saves "Alex", "a@b.com" and "14:30" and thanks Alex for the contact time 14:30. */
  lemma AlexAtHalfPastTwo(req: Value, gyms: map<string, seq<Entry>>, today: Date, now: DateTime)
    requires ValidDate(today)
    requires req == AlexRequest()
    ensures Dispatch(req, Some(gyms), false, today, now) == Outcome(
      [Text(Confirmation("Alex", "14:30", "a@b.com"))],
      Some(QuoteRecord(PStr("Alex"), PStr("a@b.com"), PStr("14:30"), now)))
  {
    AlexFormNormalised();
    SubmitSaves(req, gyms, today, now, PStr("Alex"), PStr("a@b.com"), PStr("14:30"));
  }
}
