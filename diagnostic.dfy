/**
 * The four-question sleep diagnostic. A conversation moves through the stages
 * AGE, SIESTES, COUCHER and REVEILS and returns to END; the answers are kept
 * in the user's `user_data` dictionary under the keys `diagnostic_age`,
 * `diagnostic_siestes` and `diagnostic_coucher`. Nothing ever removes them:
 * they outlive the end or the cancellation of a conversation and are
 * overwritten by the next one.
 *
 * The chat library's conversation handler is modelled by the routing of
 * `Handle`: outside a conversation only the `diagnostic` command is handled;
 * inside one, a text message goes to the handler of the current stage and the
 * `cancel` command ends the conversation; everything else is left to the
 * bot's other handlers. The transport has already told commands from texts.
 */
module Diagnostic {
  import opened Wrappers
  import opened PyInt
  import opened Users

  datatype Stage = Age | Siestes | Coucher | Reveils | End

  /** A value stored in `user_data`: the two counts are ints, the bedtime is the text as typed. */
  datatype Answer = Number(n: int) | Text(s: string)

  const AgeKey: string := "diagnostic_age"
  const SiestesKey: string := "diagnostic_siestes"
  const CoucherKey: string := "diagnostic_coucher"

  const DiagnosticCommand: string := "diagnostic"
  const CancelCommand: string := "cancel"

  datatype Message = Command(name: string) | TextMessage(text: string)

  /** The four answers a completed diagnostic reports. */
  datatype Situation = Situation(age: int, siestes: int, coucher: string, reveils: int)

  /** Which reply the bot sends; the wording is not modelled. */
  datatype Reply =
    | Unhandled
    | AskAge
    | AskSiestes
    | AskCoucher
    | AskReveils
    | AskNumberAgain
    | Cancelled
    | Report(situation: Situation)

  datatype Conversation = Conversation(stage: Stage, userData: map<string, Answer>)

  predicate HasNumber(userData: map<string, Answer>, key: string) {
    key in userData && userData[key].Number?
  }

  predicate HasText(userData: map<string, Answer>, key: string) {
    key in userData && userData[key].Text?
  }

  /**
   * Every answer a stage will read has been stored before the stage is
   * reached, so the dictionary lookups of `diagnostic_reveils` cannot fail.
   */
  predicate Wired(c: Conversation) {
    && (c.stage in {Siestes, Coucher, Reveils} ==> HasNumber(c.userData, AgeKey))
    && (c.stage in {Coucher, Reveils} ==> HasNumber(c.userData, SiestesKey))
    && (c.stage == Reveils ==> HasText(c.userData, CoucherKey))
  }

  /**
   * One message in a conversation: the new conversation and the reply. A
   * number is read with Python's `int()`; a text it refuses re-asks the same
   * question and stores nothing. The bedtime is taken as typed.
   */
  function Handle(c: Conversation, m: Message): (r: (Conversation, Reply))
    requires Wired(c)
    ensures Wired(r.0)
    ensures c.userData.Keys <= r.0.userData.Keys
    ensures r.1.Report? <==> c.stage == Reveils && m.TextMessage? && ParseInt(m.text).Some?
    ensures r.1 == Unhandled ==> r.0 == c
    ensures r.0.stage == End ==> r.0.userData == c.userData
  {
    match m
    case Command(name) =>
      if c.stage == End then
        if name == DiagnosticCommand then (c.(stage := Age), AskAge) else (c, Unhandled)
      else if name == CancelCommand then
        (c.(stage := End), Cancelled)
      else
        (c, Unhandled)
    case TextMessage(text) =>
      match c.stage
      case End => (c, Unhandled)
      case Age =>
        (match ParseInt(text)
         case Some(age) => (Conversation(Siestes, c.userData[AgeKey := Number(age)]), AskSiestes)
         case None => (c, AskNumberAgain))
      case Siestes =>
        (match ParseInt(text)
         case Some(siestes) => (Conversation(Coucher, c.userData[SiestesKey := Number(siestes)]), AskCoucher)
         case None => (c, AskNumberAgain))
      case Coucher =>
        (Conversation(Reveils, c.userData[CoucherKey := Text(text)]), AskReveils)
      case Reveils =>
        (match ParseInt(text)
         case Some(reveils) =>
           var s := Situation(c.userData[AgeKey].n, c.userData[SiestesKey].n, c.userData[CoucherKey].s, reveils);
           (c.(stage := End), Report(s))
         case None => (c, AskNumberAgain))
  }

  /** A sequence of messages, one after the other: the final conversation and every reply. */
  function Feed(c: Conversation, ms: seq<Message>): (r: (Conversation, seq<Reply>))
    requires Wired(c)
    ensures Wired(r.0) && |r.1| == |ms|
    decreases |ms|
  {
    if ms == [] then (c, [])
    else
      var step := Handle(c, ms[0]);
      var rest := Feed(step.0, ms[1..]);
      (rest.0, [step.1] + rest.1)
  }

  /** `/diagnostic` outside a conversation asks for the age and keeps the stored answers. */
  lemma StartAsksAge(userData: map<string, Answer>)
    ensures Handle(Conversation(End, userData), Command(DiagnosticCommand)) == (Conversation(Age, userData), AskAge)
  {
  }

  /** `/cancel` ends a conversation from any stage, without a report and without clearing the answers. */
  lemma CancelFromAnyStage(c: Conversation)
    requires Wired(c) && c.stage != End
    ensures Handle(c, Command(CancelCommand)) == (Conversation(End, c.userData), Cancelled)
  {
  }

  /** At the three numeric questions, a text that is not a number changes nothing and asks again. */
  lemma NotANumberAsksAgain(c: Conversation, text: string)
    requires Wired(c) && c.stage in {Age, Siestes, Reveils}
    requires ParseInt(text).None?
    ensures Handle(c, TextMessage(text)) == (c, AskNumberAgain)
  {
  }

  /** The bedtime question accepts any text and stores it as typed. */
  lemma BedtimeTakesAnyText(c: Conversation, text: string)
    requires Wired(c) && c.stage == Coucher
    ensures Handle(c, TextMessage(text)).0 == Conversation(Reveils, c.userData[CoucherKey := Text(text)])
  {
  }

  /** However many non-numbers arrive at a numeric question, the conversation stays where it was. */
  lemma {:induction false} NonNumbersNeverAdvance(c: Conversation, ms: seq<Message>)
    requires Wired(c) && c.stage in {Age, Siestes, Reveils}
    requires forall i :: 0 <= i < |ms| ==> ms[i].TextMessage? && ParseInt(ms[i].text).None?
    ensures Feed(c, ms).0 == c
    ensures forall i :: 0 <= i < |ms| ==> Feed(c, ms).1[i] == AskNumberAgain
  {
    if ms != [] {
      NotANumberAsksAgain(c, ms[0].text);
      NonNumbersNeverAdvance(c, ms[1..]);
      assert Feed(c, ms).1 == [AskNumberAgain] + Feed(c, ms[1..]).1;
    }
  }

  /** The last answer of a diagnostic, once `int()` accepts it, yields the report of the stored answers. */
  lemma FromReveils(d: map<string, Answer>, reveils: string, w: int)
    requires HasNumber(d, AgeKey) && HasNumber(d, SiestesKey) && HasText(d, CoucherKey)
    requires ParseInt(reveils) == Some(w)
    ensures Feed(Conversation(Reveils, d), [TextMessage(reveils)])
            == (Conversation(End, d), [Report(Situation(d[AgeKey].n, d[SiestesKey].n, d[CoucherKey].s, w))])
  {
    var m, r := TextMessage(reveils), Report(Situation(d[AgeKey].n, d[SiestesKey].n, d[CoucherKey].s, w));
    PrependToNone(m);
    PrependToNone(r);
    ReveilsAnswered(d, reveils);
    FeedStep(Conversation(Reveils, d), m, [], Conversation(End, d), r);
  }

  /** From the bedtime question, a bedtime and a number of wakings complete the diagnostic. */
  lemma FromCoucher(d: map<string, Answer>, coucher: string, reveils: string, w: int)
    requires HasNumber(d, AgeKey) && HasNumber(d, SiestesKey)
    requires ParseInt(reveils) == Some(w)
    ensures Feed(Conversation(Coucher, d), [TextMessage(coucher), TextMessage(reveils)])
            == (Conversation(End, d[CoucherKey := Text(coucher)]),
                [AskReveils, Report(Situation(d[AgeKey].n, d[SiestesKey].n, coucher, w))])
  {
    var m := TextMessage(coucher);
    PrependToOne(m, TextMessage(reveils));
    PrependToOne(AskReveils, Report(Situation(d[AgeKey].n, d[SiestesKey].n, coucher, w)));
    KeysDistinct();
    var d3 := d[CoucherKey := Text(coucher)];
    assert Handle(Conversation(Coucher, d), m) == (Conversation(Reveils, d3), AskReveils);
    FeedStep(Conversation(Coucher, d), m, [TextMessage(reveils)], Conversation(Reveils, d3), AskReveils);
    FromReveils(d3, reveils, w);
    assert d3[AgeKey].n == d[AgeKey].n && d3[SiestesKey].n == d[SiestesKey].n && d3[CoucherKey].s == coucher;
  }

  /** From the nap question, three answers of which two are numbers complete the diagnostic. */
  lemma FromSiestes(d: map<string, Answer>, siestes: string, coucher: string, reveils: string, n: int, w: int)
    requires HasNumber(d, AgeKey)
    requires ParseInt(siestes) == Some(n) && ParseInt(reveils) == Some(w)
    ensures Feed(Conversation(Siestes, d), [TextMessage(siestes), TextMessage(coucher), TextMessage(reveils)])
            == (Conversation(End, d[SiestesKey := Number(n)][CoucherKey := Text(coucher)]),
                [AskCoucher, AskReveils, Report(Situation(d[AgeKey].n, n, coucher, w))])
  {
    var m := TextMessage(siestes);
    PrependToTwo(m, TextMessage(coucher), TextMessage(reveils));
    PrependToTwo(AskCoucher, AskReveils, Report(Situation(d[AgeKey].n, n, coucher, w)));
    KeysDistinct();
    var d2 := d[SiestesKey := Number(n)];
    SiestesAnswered(d, siestes);
    FeedStep(Conversation(Siestes, d), m, [TextMessage(coucher), TextMessage(reveils)], Conversation(Coucher, d2), AskCoucher);
    FromCoucher(d2, coucher, reveils, w);
    assert d2[AgeKey].n == d[AgeKey].n && d2[SiestesKey].n == n;
  }

  /** From the age question, the four answers complete the diagnostic. */
  lemma FromAge(d: map<string, Answer>, age: string, siestes: string, coucher: string, reveils: string,
                a: int, n: int, w: int)
    requires ParseInt(age) == Some(a) && ParseInt(siestes) == Some(n) && ParseInt(reveils) == Some(w)
    ensures Feed(Conversation(Age, d), [TextMessage(age), TextMessage(siestes), TextMessage(coucher), TextMessage(reveils)])
            == (Conversation(End, d[AgeKey := Number(a)][SiestesKey := Number(n)][CoucherKey := Text(coucher)]),
                [AskSiestes, AskCoucher, AskReveils, Report(Situation(a, n, coucher, w))])
  {
    var m := TextMessage(age);
    PrependToThree(m, TextMessage(siestes), TextMessage(coucher), TextMessage(reveils));
    PrependToThree(AskSiestes, AskCoucher, AskReveils, Report(Situation(a, n, coucher, w)));
    var d1 := d[AgeKey := Number(a)];
    AgeAnswered(d, age);
    FeedStep(Conversation(Age, d), m, [TextMessage(siestes), TextMessage(coucher), TextMessage(reveils)],
             Conversation(Siestes, d1), AskSiestes);
    FromSiestes(d1, siestes, coucher, reveils, n, w);
    assert d1[AgeKey].n == a;
  }

  /**
   * A complete diagnostic, started outside a conversation, reports exactly the
   * four answers given in it, whatever a previous conversation left in
   * `user_data`, and ends with those answers stored.
   */
  lemma FullDiagnostic(userData: map<string, Answer>, age: string, siestes: string, coucher: string, reveils: string,
                       a: int, n: int, w: int)
    requires ParseInt(age) == Some(a) && ParseInt(siestes) == Some(n) && ParseInt(reveils) == Some(w)
    ensures
      var stored := userData[AgeKey := Number(a)][SiestesKey := Number(n)][CoucherKey := Text(coucher)];
      Feed(Conversation(End, userData),
           [Command(DiagnosticCommand), TextMessage(age), TextMessage(siestes), TextMessage(coucher), TextMessage(reveils)])
      == (Conversation(End, stored), [AskAge, AskSiestes, AskCoucher, AskReveils, Report(Situation(a, n, coucher, w))])
  {
    var m := Command(DiagnosticCommand);
    PrependToFour(m, TextMessage(age), TextMessage(siestes), TextMessage(coucher), TextMessage(reveils));
    PrependToFour(AskAge, AskSiestes, AskCoucher, AskReveils, Report(Situation(a, n, coucher, w)));
    StartAsksAge(userData);
    FeedStep(Conversation(End, userData), m, [TextMessage(age), TextMessage(siestes), TextMessage(coucher), TextMessage(reveils)],
             Conversation(Age, userData), AskAge);
    FromAge(userData, age, siestes, coucher, reveils, a, n, w);
  }

  lemma KeysDistinct()
    ensures AgeKey != SiestesKey && AgeKey != CoucherKey && SiestesKey != CoucherKey
  {
    assert AgeKey[11] != SiestesKey[11] && SiestesKey[11] != CoucherKey[11] && AgeKey[11] != CoucherKey[11];
  }

  /** An age that `int()` accepts is stored and the nap question follows. */
  lemma AgeAnswered(userData: map<string, Answer>, text: string)
    requires ParseInt(text).Some?
    ensures Handle(Conversation(Age, userData), TextMessage(text))
            == (Conversation(Siestes, userData[AgeKey := Number(ParseInt(text).value)]), AskSiestes)
  {
  }

  /** A nap count that `int()` accepts is stored and the bedtime question follows. */
  lemma SiestesAnswered(userData: map<string, Answer>, text: string)
    requires HasNumber(userData, AgeKey) && ParseInt(text).Some?
    ensures Handle(Conversation(Siestes, userData), TextMessage(text))
            == (Conversation(Coucher, userData[SiestesKey := Number(ParseInt(text).value)]), AskCoucher)
  {
  }

  /** A waking count that `int()` accepts ends the conversation with the report of the stored answers. */
  lemma ReveilsAnswered(userData: map<string, Answer>, text: string)
    requires HasNumber(userData, AgeKey) && HasNumber(userData, SiestesKey) && HasText(userData, CoucherKey)
    requires ParseInt(text).Some?
    ensures Handle(Conversation(Reveils, userData), TextMessage(text))
            == (Conversation(End, userData),
                Report(Situation(userData[AgeKey].n, userData[SiestesKey].n, userData[CoucherKey].s, ParseInt(text).value)))
  {
  }

  // Literal sequences as one element followed by the rest, for chaining `FeedStep`.
  lemma PrependToNone<T>(x: T)
    ensures [x] + [] == [x]
  {
  }

  lemma PrependToOne<T>(x: T, a: T)
    ensures [x] + [a] == [x, a]
  {
  }

  lemma PrependToTwo<T>(x: T, a: T, b: T)
    ensures [x] + [a, b] == [x, a, b]
  {
  }

  lemma PrependToThree<T>(x: T, a: T, b: T, c: T)
    ensures [x] + [a, b, c] == [x, a, b, c]
  {
  }

  lemma PrependToFour<T>(x: T, a: T, b: T, c: T, e: T)
    ensures [x] + [a, b, c, e] == [x, a, b, c, e]
  {
  }

  /** Feeding `[m] + ms` is one step of `Handle` followed by feeding `ms`. */
  lemma FeedStep(c: Conversation, m: Message, ms: seq<Message>, next: Conversation, reply: Reply)
    requires Wired(c) && Handle(c, m) == (next, reply)
    ensures Feed(c, [m] + ms) == (Feed(next, ms).0, [reply] + Feed(next, ms).1)
  {
    assert ([m] + ms)[0] == m && ([m] + ms)[1..] == ms;
  }

  // ---- The recommendation of `diagnostic_reveils` and the table of `/siestes`

  /** The ideal number of naps for an age in months: 4 up to 3 months, 3 up to 6, 2 up to 12, then 1. */
  function IdealNaps(age: int): (n: int)
    ensures 1 <= n <= 4
    ensures n == 4 <==> age <= 3
    ensures n == 3 <==> 3 < age <= 6
    ensures n == 2 <==> 6 < age <= 12
    ensures n == 1 <==> age > 12
  {
    if age <= 3 then 4 else if age <= 6 then 3 else if age <= 12 then 2 else 1
  }

  datatype NapVerdict = TooManyNaps | TooFewNaps | NapsAdapted

  /** The nap verdict compares the actual count with the ideal one. */
  function NapVerdictFor(siestes: int, ideal: int): (v: NapVerdict)
    ensures v == TooManyNaps <==> siestes > ideal
    ensures v == TooFewNaps <==> siestes < ideal
    ensures v == NapsAdapted <==> siestes == ideal
  {
    if siestes > ideal then TooManyNaps else if siestes < ideal then TooFewNaps else NapsAdapted
  }

  datatype WakeVerdict = FrequentWakings | SomeWakings | SleepsWell

  /** More than three wakings a night are frequent, one to three are normal, none is excellent. */
  function WakeVerdictFor(reveils: int): (v: WakeVerdict)
    ensures v == FrequentWakings <==> reveils > 3
    ensures v == SomeWakings <==> 0 < reveils <= 3
    ensures v == SleepsWell <==> reveils <= 0
  {
    if reveils > 3 then FrequentWakings else if reveils > 0 then SomeWakings else SleepsWell
  }

  datatype Recommendation = Recommendation(
    situation: Situation,
    idealNaps: int,
    naps: NapVerdict,
    wakes: WakeVerdict,
    premiumNotice: bool)

  /** The analysis of a completed diagnostic; the invitation to subscribe is added exactly for users who are not premium. */
  function Recommend(s: Situation, premium: bool): (r: Recommendation)
    ensures r.situation == s
    ensures r.premiumNotice <==> !premium
    ensures r.idealNaps == IdealNaps(s.age) && 1 <= r.idealNaps <= 4
    ensures r.naps == TooManyNaps <==> s.siestes > r.idealNaps
    ensures r.naps == TooFewNaps <==> s.siestes < r.idealNaps
    ensures r.naps == NapsAdapted <==> s.siestes == r.idealNaps
    ensures r.wakes == FrequentWakings <==> s.reveils > 3
    ensures r.wakes == SomeWakings <==> 0 < s.reveils <= 3
    ensures r.wakes == SleepsWell <==> s.reveils <= 0
  {
    var ideal := IdealNaps(s.age);
    Recommendation(s, ideal, NapVerdictFor(s.siestes, ideal), WakeVerdictFor(s.reveils), !premium)
  }

  /** Six months, two naps, one waking, not premium: too few naps (three are ideal), normal wakings. */
  lemma SixMonthExample()
    ensures Recommend(Situation(6, 2, "19h30", 1), false)
            == Recommendation(Situation(6, 2, "19h30", 1), 3, TooFewNaps, SomeWakings, true)
  {
  }

  /** The four age brackets of `/siestes`. */
  datatype AgeBracket = UpTo3Months | From4To6Months | From7To12Months | Over12Months

  function BracketOf(age: int): (b: AgeBracket)
    ensures b == UpTo3Months <==> age <= 3
    ensures b == From4To6Months <==> 3 < age <= 6
    ensures b == From7To12Months <==> 6 < age <= 12
    ensures b == Over12Months <==> age > 12
  {
    if age <= 3 then UpTo3Months
    else if age <= 6 then From4To6Months
    else if age <= 12 then From7To12Months
    else Over12Months
  }

  /** The range of daily naps `/siestes` advises for a bracket. */
  function BracketNaps(b: AgeBracket): (range: (int, int))
    ensures 1 <= range.0 <= range.1
  {
    match b
    case UpTo3Months => (4, 5)
    case From4To6Months => (3, 3)
    case From7To12Months => (2, 2)
    case Over12Months => (1, 1)
  }

  datatype SiestesReply = SiestesUsage | SiestesNotANumber | SiestesAdvice(bracket: AgeBracket)

  /**
   * `/siestes <age>`: without an argument the usage text; an argument `int()`
   * refuses raises (the bot's error handler answers); otherwise the bracket.
   */
  function SiestesCommand(args: seq<string>): (r: SiestesReply)
    ensures r == SiestesUsage <==> args == []
    ensures r.SiestesAdvice? <==> args != [] && ParseInt(args[0]).Some?
    ensures r.SiestesAdvice? ==> r.bracket == BracketOf(ParseInt(args[0]).value)
  {
    if args == [] then SiestesUsage
    else match ParseInt(args[0])
      case Some(age) => SiestesAdvice(BracketOf(age))
      case None => SiestesNotANumber
  }

  /**
   * The diagnostic and `/siestes` use the same thresholds: the ideal nap count
   * is the least count of the bracket `/siestes` shows for the same age.
   */
  lemma IdealIsBracketMinimum(age: int)
    ensures IdealNaps(age) == BracketNaps(BracketOf(age)).0
  {
  }

  /** An older child never has a higher ideal nap count. */
  lemma IdealNapsNonIncreasing(a: int, b: int)
    requires a <= b
    ensures IdealNaps(a) >= IdealNaps(b)
  {
  }

  /** The conversation state of one user, as the chat library and `user_data` hold it. */
  class DiagnosticSession {
    const userId: int
    var stage: Stage
    var userData: map<string, Answer>

    function Snapshot(): Conversation
      reads this
    {
      Conversation(stage, userData)
    }

    ghost predicate Valid()
      reads this
    {
      Wired(Snapshot())
    }

    constructor (userId: int)
      ensures this.userId == userId && stage == End && userData == map[] && Valid()
    {
      this.userId := userId;
      stage := End;
      userData := map[];
    }

    /** `diagnostic_start` */
    method DiagnosticStart() returns (reply: Reply)
      requires Valid()
      modifies this
      ensures Valid()
      ensures stage == Age && userData == old(userData) && reply == AskAge
    {
      stage := Age;
      reply := AskAge;
    }

    /** `diagnostic_age` */
    method DiagnosticAge(text: string) returns (reply: Reply)
      requires Valid() && stage == Age
      modifies this
      ensures Valid()
      ensures ParseInt(text).Some? ==>
        stage == Siestes && userData == old(userData)[AgeKey := Number(ParseInt(text).value)] && reply == AskSiestes
      ensures ParseInt(text).None? ==> stage == Age && userData == old(userData) && reply == AskNumberAgain
    {
      var age := ParseInt(text);
      if age.None? {
        stage := Age;
        return AskNumberAgain;
      }
      userData := userData[AgeKey := Number(age.value)];
      stage := Siestes;
      reply := AskSiestes;
    }

    /** `diagnostic_siestes` */
    method DiagnosticSiestes(text: string) returns (reply: Reply)
      requires Valid() && stage == Siestes
      modifies this
      ensures Valid()
      ensures ParseInt(text).Some? ==>
        stage == Coucher && userData == old(userData)[SiestesKey := Number(ParseInt(text).value)] && reply == AskCoucher
      ensures ParseInt(text).None? ==> stage == Siestes && userData == old(userData) && reply == AskNumberAgain
    {
      var siestes := ParseInt(text);
      if siestes.None? {
        stage := Siestes;
        return AskNumberAgain;
      }
      userData := userData[SiestesKey := Number(siestes.value)];
      stage := Coucher;
      reply := AskCoucher;
    }

    /** `diagnostic_coucher` */
    method DiagnosticCoucher(text: string) returns (reply: Reply)
      requires Valid() && stage == Coucher
      modifies this
      ensures Valid()
      ensures stage == Reveils && userData == old(userData)[CoucherKey := Text(text)] && reply == AskReveils
    {
      userData := userData[CoucherKey := Text(text)];
      stage := Reveils;
      reply := AskReveils;
    }

    /**
     * `diagnostic_reveils`: on a number, the report of the four answers and the
     * recommendation for them. The premium notice follows `is_premium` for
     * this user, which may clear an expired flag in the store.
     */
    method DiagnosticReveils(text: string, store: UserStore, now: int, up: bool)
      returns (reply: Reply, rec: Option<Recommendation>)
      requires Valid() && stage == Reveils
      modifies this, store
      ensures Valid() && userData == old(userData)
      ensures ParseInt(text).None? ==>
        stage == Reveils && reply == AskNumberAgain && rec == None && store.users == old(store.users)
      ensures ParseInt(text).Some? ==>
        && stage == End
        && reply == Report(Situation(userData[AgeKey].n, userData[SiestesKey].n, userData[CoucherKey].s, ParseInt(text).value))
        && var (premium, after) := PremiumCheck(old(store.users), userId, now, up);
           store.users == after && rec == Some(Recommend(reply.situation, premium))
    {
      var reveils := ParseInt(text);
      if reveils.None? {
        stage := Reveils;
        return AskNumberAgain, None;
      }
      var situation := Situation(userData[AgeKey].n, userData[SiestesKey].n, userData[CoucherKey].s, reveils.value);
      var premium := store.IsPremium(userId, now, up);
      rec := Some(Recommend(situation, premium));
      reply := Report(situation);
      stage := End;
    }

    /** `diagnostic_cancel` */
    method DiagnosticCancel() returns (reply: Reply)
      requires Valid()
      modifies this
      ensures Valid()
      ensures stage == End && userData == old(userData) && reply == Cancelled
    {
      stage := End;
      reply := Cancelled;
    }

    /**
     * The conversation handler's routing of one message to the handlers
     * above. It does what `Handle` says, and only a report consults the store.
     */
    method Receive(m: Message, store: UserStore, now: int, up: bool) returns (reply: Reply, rec: Option<Recommendation>)
      requires Valid()
      modifies this, store
      ensures Valid()
      ensures (Snapshot(), reply) == Handle(old(Snapshot()), m)
      ensures !reply.Report? ==> rec == None && store.users == old(store.users)
      ensures reply.Report? ==>
        var (premium, after) := PremiumCheck(old(store.users), userId, now, up);
        store.users == after && rec == Some(Recommend(reply.situation, premium))
    {
      rec := None;
      match m {
        case Command(name) =>
          if stage == End {
            if name == DiagnosticCommand {
              reply := DiagnosticStart();
            } else {
              reply := Unhandled;
            }
          } else if name == CancelCommand {
            reply := DiagnosticCancel();
          } else {
            reply := Unhandled;
          }
        case TextMessage(text) =>
          match stage {
            case End => reply := Unhandled;
            case Age => reply := DiagnosticAge(text);
            case Siestes => reply := DiagnosticSiestes(text);
            case Coucher => reply := DiagnosticCoucher(text);
            case Reveils => reply, rec := DiagnosticReveils(text, store, now, up);
          }
      }
    }
  }
}
