/**
 * The chat widget: a message log shown to the visitor, a keyword router
 * that answers common questions from a local copy of the institute data,
 * the `**bold**` and keyword-icon rewriting of replies, line-by-line
 * rendering, and the category filters over the quick actions and the
 * partner universities.
 *
 * The call to `/api/chat` is an oracle: `ApiOutcome` is what the widget
 * gets back. Message ids (`Date.now()`), scrolling, focus and animation are
 * not modelled.
 */
module ChatWidget {
  import opened Wrappers
  import opened JsText
  import ChatRoute


  // ---------------------------------------------------------------------------
  // Local institute data
  // ---------------------------------------------------------------------------

  datatype Office = Office(country: string, address: string, phone: seq<string>)

  const CanadaOffice := Office("Canada", "23 Westmore Drive, Unit #301 B, Toronto M9V 3Y6",
    ["+1 905-462-6465", "+1 647-706-0737"])
  const IndiaOffice := Office("India",
    "Chandigarh Road, Opp. Osho Dhara Hospital, Near Khalsa School, Nawanshahr", ["+91-96272-00088"])

  const AssociatedWith := ["RCIC (Regulated Canadian Immigration Consultant)",
    "CRIC (Canadian Regulatory Immigration Consultant)"]
  const StudyAbroad := ["Canada", "Australia"]
  const Consultation := ["Study Visa Counselling", "University Selection", "Course Guidance",
    "Application & Documentation Support", "Scholarship Assistance", "Pre-departure Guidance"]
  const AdmissionProcess := "Visit any Nationwide office or contact them via phone/social media for counselling, course selection, document assessment, and university application submission."
  const Intakes := ["February", "July", "November"]
  const Eligibility := "Eligibility varies by university and program; generally requires academic transcripts, English proficiency test scores, and valid identification documents."
  const CounsellingFee := "Free initial counselling"
  const AdditionalCharges := "Processing fees may apply depending on university and visa requirements."

  /** The social-media flags, in the object's key order. */
  const SocialMedia: seq<(string, bool)> := [("instagram", true), ("facebook", true), ("youtube", true), ("linkedin", true)]

  datatype University = University(id: string, name: string, country: string, ranking: string,
                                   popularCourses: seq<string>, category: string)

  const Universities: seq<University> := [
    University("melbourne", "The University of Melbourne", "Australia", "World Top 50", ["Business", "Engineering", "Computer Science"], "australia"),
    University("sydney", "The University of Sydney", "Australia", "World Top 100", ["Medicine", "Law", "Arts"], "australia"),
    University("deakin", "Deakin University", "Australia", "Top 300 globally", ["Business", "IT", "Health Sciences"], "australia"),
    University("rmit", "RMIT University", "Australia", "QS 5-Star rating", ["Design", "Engineering", "Business"], "australia"),
    University("uq", "The University of Queensland", "Australia", "World Top 50", ["Science", "Engineering", "Business"], "australia"),
    University("monash", "Monash University", "Australia", "World Top 100", ["Pharmacy", "Engineering", "Business"], "australia"),
    University("latrobe", "La Trobe University", "Australia", "Top 400 globally", ["Health Sciences", "Business", "IT"], "australia")
  ]

  datatype QuickAction = QuickAction(caption: string, query: string, category: string)

  const QuickActions: seq<QuickAction> := [
    QuickAction("Australian Universities", "Which Australian universities are you partnered with?", "australia"),
    QuickAction("Canada Study", "Tell me about studying in Canada", "canada"),
    QuickAction("Visa Assistance", "Do you help with visa filing and documentation?", "visa"),
    QuickAction("Free Counselling", "Is the initial counselling really free?", "consultation"),
    QuickAction("Contact Info", "What are your contact details for Canada and India offices?", "contact"),
    QuickAction("Certified Consultants", "Are your immigration consultants certified?", "consultation"),
    QuickAction("Admission Process", "What is the admission process for studying abroad?", "consultation"),
    QuickAction("Scholarships", "Do you provide scholarship assistance?", "consultation")
  ]

  // ---------------------------------------------------------------------------
  // Keyword routing
  // ---------------------------------------------------------------------------

  /** The topics answered locally from the institute data. */
  datatype Topic = Admission | Visa | ContactDetails | Counselling | Certification | Scholarship

  /** Where a message is answered: by showing the university list, locally
      by topic, or by the chat endpoint. */
  datatype Route = ShowUniversities | Local(topic: Topic) | Api

  /** The rules, tried in order on the lower-cased message; the first rule
      with a keyword contained in the message wins. */
  const Rules: seq<(Route, seq<string>)> := [
    (ShowUniversities, ["university", "partner", "australia"]),
    (Local(Admission), ["admission", "apply", "process"]),
    (Local(Visa), ["visa", "immigration", "document"]),
    (Local(ContactDetails), ["contact", "phone", "email", "address", "office"]),
    (Local(Counselling), ["free", "counselling", "consult"]),
    (Local(Certification), ["certif", "rcic", "cric"]),
    (Local(Scholarship), ["scholarship", "funding", "financial"])
  ]

  predicate MentionsAny(lower: string, words: seq<string>) {
    exists w | w in words :: Contains(lower, w)
  }

  /** The route given by the first rule that mentions one of its words. */
  function RouteBy(rules: seq<(Route, seq<string>)>, lower: string): Route
    decreases |rules|
  {
    if rules == [] then Api
    else if MentionsAny(lower, rules[0].1) then rules[0].0
    else RouteBy(rules[1..], lower)
  }

  /** The route of a (trimmed) message. */
  function Classify(text: string): Route {
    RouteBy(Rules, Lower(text))
  }

  /** The first matching rule decides. */
  lemma {:induction false} RouteByFirst(rules: seq<(Route, seq<string>)>, lower: string, k: nat)
    requires k < |rules| && MentionsAny(lower, rules[k].1)
    requires forall j :: 0 <= j < k ==> !MentionsAny(lower, rules[j].1)
    ensures RouteBy(rules, lower) == rules[k].0
    decreases k
  {
    if k > 0 {
      assert !MentionsAny(lower, rules[0].1);
      RouteByFirst(rules[1..], lower, k - 1);
    }
  }

  /** With no matching rule the message goes to the endpoint. */
  lemma {:induction false} RouteByNone(rules: seq<(Route, seq<string>)>, lower: string)
    requires forall j :: 0 <= j < |rules| ==> !MentionsAny(lower, rules[j].1)
    ensures RouteBy(rules, lower) == Api
    decreases |rules|
  {
    if rules != [] {
      assert !MentionsAny(lower, rules[0].1);
      RouteByNone(rules[1..], lower);
    }
  }

  /** A message is answered by the first topic whose keywords it mentions,
      ignoring ASCII case. */
  lemma ClassifyFirstRule(text: string, k: nat)
    requires k < |Rules| && MentionsAny(Lower(text), Rules[k].1)
    requires forall j :: 0 <= j < k ==> !MentionsAny(Lower(text), Rules[j].1)
    ensures Classify(text) == Rules[k].0 && Classify(text) != Api
  {
    RouteByFirst(Rules, Lower(text), k);
  }

  /** A message goes to the endpoint exactly when it mentions no keyword of any rule. */
  lemma ClassifyApiIffNoRule(text: string)
    ensures Classify(text) == Api <==> forall k :: 0 <= k < |Rules| ==> !MentionsAny(Lower(text), Rules[k].1)
  {
    var lower := Lower(text);
    match FirstWhere(Rules, (rule: (Route, seq<string>)) => MentionsAny(lower, rule.1))
    case Some(k) =>
      ClassifyFirstRule(text, k);
    case None =>
      RouteByNone(Rules, lower);
  }

  const CertifiedQuery := "Are your immigration consultants certified?"
  const CertifiedLower := "are your immigration consultants certified?"

  /** The "Certified Consultants" quick action mentions "immigration", so the
      visa rule answers it before the certification rule is reached. */
  lemma CertifiedQuickActionRoutesToVisa()
    ensures QuickActions[5].query == CertifiedQuery
    ensures Classify(CertifiedQuery) == Local(Visa)
  {
    LowerCertified();
    ImmigrationAt();
    assert "immigration" in Rules[2].1;
    assert Contains(CertifiedLower, "immigration");
    assert MentionsAny(CertifiedLower, Rules[2].1);
    NoRuleWordBefore(0);
    NoRuleWordBefore(1);
    ClassifyFirstRule(CertifiedQuery, 2);
  }

  lemma LowerCertified()
    ensures Lower(CertifiedQuery) == CertifiedLower
  {
    SameAfterCapital();
    forall i | 0 <= i < |CertifiedQuery|
      ensures Lower(CertifiedQuery)[i] == CertifiedLower[i]
    {
    }
  }

  /** Past its capital letter the query is already lower case. */
  lemma SameAfterCapital()
    ensures |CertifiedQuery| == |CertifiedLower|
    ensures CertifiedQuery[0] == 'A' && CertifiedLower[0] == 'a'
    ensures forall i :: 1 <= i < |CertifiedQuery| ==> CertifiedQuery[i] == CertifiedLower[i] && !IsAsciiUpper(CertifiedQuery[i])
  {
  }

  /** Where "immigration" sits in the query. */
  lemma ImmigrationAt()
    ensures MatchAt(CertifiedLower, "immigration", 9)
  {
    forall j | 0 <= j < 11
      ensures CertifiedLower[9 + j] == "immigration"[j]
    {
    }
    assert CertifiedLower[9..20] == "immigration";
  }

  /** Neither the university rule nor the admission rule matches the query:
      it has no `v` and no `p`, and neither `au` nor `ad`. */
  lemma NoRuleWordBefore(k: nat)
    requires k < 2
    ensures !MentionsAny(CertifiedLower, Rules[k].1)
  {
    NoP();
    NoV();
    NoAU();
    NoAD();
    if k == 0 {
      AbsentNotContained(CertifiedLower, "university", 3);
      AbsentNotContained(CertifiedLower, "partner", 0);
      NoPairNotContained(CertifiedLower, "australia");
    } else {
      NoPairNotContained(CertifiedLower, "admission");
      AbsentNotContained(CertifiedLower, "apply", 1);
      AbsentNotContained(CertifiedLower, "process", 0);
    }
  }

  predicate Absent(s: string, c: char) {
    forall i :: 0 <= i < |s| ==> s[i] != c
  }

  predicate NoPair(s: string, a: char, b: char) {
    forall i :: 0 <= i < |s| - 1 ==> !(s[i] == a && s[i + 1] == b)
  }

  lemma NoP() ensures Absent(CertifiedLower, 'p') {}
  lemma NoV() ensures Absent(CertifiedLower, 'v') {}
  lemma NoAU() ensures NoPair(CertifiedLower, 'a', 'u') {}
  lemma NoAD() ensures NoPair(CertifiedLower, 'a', 'd') {}

  /** A word with a letter the text lacks does not occur in it. */
  lemma AbsentNotContained(s: string, w: string, j: nat)
    requires j < |w| && Absent(s, w[j])
    ensures !Contains(s, w)
  {
  }

  /** A word whose first two letters never occur together in the text does not occur in it. */
  lemma NoPairNotContained(s: string, w: string)
    requires |w| >= 2 && NoPair(s, w[0], w[1])
    ensures !Contains(s, w)
  {
  }

  // ---------------------------------------------------------------------------
  // Messages
  // ---------------------------------------------------------------------------

  /** What the widget gets from `/api/chat`: nothing usable (the fetch or the
      JSON parse threw), or a body with a truthy `error` or not, and `reply`. */
  datatype ApiOutcome = Unreachable | Body(hasError: bool, reply: Option<string>)

  datatype Sender = User | Bot

  /** What a message says. The log records where each text comes from; `Text`
      gives the exact string the source stores. */
  datatype Content =
    | Welcome
    | Typed(typed: string)
    | TopicAnswer(topic: Topic)
    | UniversityCard(university: University)
    | ConnectionTrouble
    | CurrentlyUnavailable
    | Formatted(reply: string)

  datatype Message = Message(from: Sender, content: Content) {
    /** The message's text. */
    function Text(): string {
      match content
      case Welcome => GreetingText
      case Typed(t) => t
      case TopicAnswer(t) => LocalAnswer(t)
      case UniversityCard(u) => UniversityMessage(u)
      case ConnectionTrouble => TroubleText
      case CurrentlyUnavailable => UnavailableText
      case Formatted(reply) => FormatMessage(reply)
    }

    /** Only the endpoint's formatted replies are shown as markup. */
    predicate IsHtml() {
      content.Formatted?
    }
  }

  const GreetingText := "**Hello 👋 Welcome to Nationwide!** 🌍\n\n**Get your best here!**\n\nI'm here to help you with:\n\n• **Study Abroad Opportunities** ✈\U{FE0F}\n• **University Partnerships** 🎓\n• **Visa Consultation** 📋\n• **Admission Process** 📝\n• **Free Counselling** 💬\n• **Contact Details** 📞\n\nHow can I assist you today?"

  const Greeting := Message(Bot, Welcome)

  /** `xs.map(x => `• ${x}`).join('\n')`. */
  function Bullets(xs: seq<string>): string {
    Join(seq(|xs|, i requires 0 <= i < |xs| => "• " + xs[i]), "\n")
  }

  /** `s.charAt(0).toUpperCase() + s.slice(1)` for ASCII text. */
  function Capitalize(s: string): string {
    if s == [] then [] else [if 'a' <= s[0] <= 'z' then (s[0] as int - 32) as char else s[0]] + s[1..]
  }

  /** The platforms whose flag is set, capitalised, as bullets. */
  function SocialLines(flags: seq<(string, bool)>): string {
    var on := Filter(flags, (f: (string, bool)) => f.1);
    Bullets(seq(|on|, i requires 0 <= i < |on| => Capitalize(on[i].0)))
  }

  function PhoneLine(o: Office): string {
    Join(o.phone, " / ")
  }

  // ---------------------------------------------------------------------------
  // Canned answers
  // ---------------------------------------------------------------------------

  /** The answers composed locally from the institute data, one per topic. */
  const AdmissionAnswer :=
    "**Admission Process** 🎓\n\n" + AdmissionProcess + "\n\n**Eligibility:**\n" + Eligibility +
    "\n\n**Intake Periods:**\n" + Bullets(Intakes) + "\n\n**Services Included:**\n" + Bullets(Consultation) +
    "\n\n**Fee Structure:**\n• " + CounsellingFee + "\n• " + AdditionalCharges

  const VisaAnswer :=
    "**Visa & Immigration Services** 📋\n\n**Certified Consultants:**\n" + Bullets(AssociatedWith) +
    "\n\n**Services Include:**\n• Complete visa documentation support\n• Application filing assistance\n• Document verification\n• Pre-departure guidance\n\n**Why Choose Us:**\n• Registered immigration consultants\n• Transparent process\n• High success rate\n• End-to-end support"

  const ContactAnswer :=
    "**Contact Information** 📞\n\n**Canada Office:**\n📍 " + CanadaOffice.address + "\n📞 " + PhoneLine(CanadaOffice) +
    "\n\n**India Office:**\n📍 " + IndiaOffice.address + "\n📞 " + PhoneLine(IndiaOffice) +
    "\n\n**Social Media:**\n" + SocialLines(SocialMedia) + "\n\n**Get your best here!** 🌍"

  const CounsellingAnswer :=
    "**Free Counselling Service** 💬\n\nYes! We offer **completely free initial counselling** to help you:\n\n**Services Include:**\n" +
    Bullets(Consultation) + "\n\n**Study Destinations:**\n" + Bullets(StudyAbroad) + "\n\n**Certifications:**\n" +
    Bullets(AssociatedWith) + "\n\nBook your free session today and start your study abroad journey!"

  const CertificationAnswer :=
    "**Certified Consultants** ✅\n\nYes! Our immigration consultants are fully certified:\n\n**Professional Certifications:**\n" +
    Bullets(AssociatedWith) +
    "\n\n**What This Means For You:**\n• Legally authorized immigration advice\n• Up-to-date knowledge of immigration laws\n• High visa success rates\n• Professional ethical standards\n• Government-regulated services\n\nYour immigration process is in safe, certified hands!"

  const ScholarshipAnswer :=
    "**Scholarship Assistance** 💰\n\nWe provide comprehensive scholarship support:\n\n**Services Include:**\n• Scholarship eligibility assessment\n• Application guidance\n• Document preparation\n• Deadline management\n• Follow-up support\n\n**Available For:**\n• Australian universities\n• Canadian institutions\n• Government scholarships\n• University-specific awards\n\n**Popular Scholarship Sources:**\n• University merit scholarships\n• Government funded programs\n• Private organization awards\n• Research grants\n\nLet us help you find the best funding options!"

  function LocalAnswer(t: Topic): string {
    match t
    case Admission => AdmissionAnswer
    case Visa => VisaAnswer
    case ContactDetails => ContactAnswer
    case Counselling => CounsellingAnswer
    case Certification => CertificationAnswer
    case Scholarship => ScholarshipAnswer
  }

  const TroubleText := "**I apologize, but I'm having trouble connecting right now.** 😔\n\nFor immediate assistance with study abroad opportunities, please contact us directly:\n\n**Canada Office:**\n📞 " +
    PhoneLine(CanadaOffice) + "\n\n**India Office:**\n📞 " + PhoneLine(IndiaOffice) + "\n\nWe're here to help you **get your best here!** 🌍"

  const UnavailableText := "**I'm currently unavailable.** 😞\n\nFor immediate help with study abroad opportunities:\n\n**Canada Office:**\n📍 " +
    CanadaOffice.address + "\n📞 " + PhoneLine(CanadaOffice) + "\n\n**India Office:**\n📍 " + IndiaOffice.address + "\n📞 " +
    PhoneLine(IndiaOffice) + "\n\n**Get your best here!** 🌍"

  const NoReply := "I apologize, but I couldn't process your request. Please contact Nationwide directly for assistance with your study abroad journey."

  /** The bot message for an endpoint outcome: the formatted reply (or the
      apology when `reply` is missing or empty) when the body has no error,
      the contact message when it has one, the unavailable message when
      nothing came back. */
  function EndpointMessage(outcome: ApiOutcome): (m: Message)
    ensures m.from == Bot
    ensures m.IsHtml() <==> outcome.Body? && !outcome.hasError
    ensures outcome.Body? && outcome.hasError ==> m.content == ConnectionTrouble
    ensures outcome.Unreachable? ==> m.content == CurrentlyUnavailable
    ensures m.content.Formatted? ==> m.content.reply != ""
    ensures m.content.Formatted? && outcome.reply.Some? && outcome.reply.value != "" ==> m.content.reply == outcome.reply.value
  {
    match outcome
    case Unreachable => Message(Bot, CurrentlyUnavailable)
    case Body(hasError, reply) =>
      if hasError then Message(Bot, ConnectionTrouble)
      else Message(Bot, Formatted(if reply.Some? && reply.value != "" then reply.value else NoReply))
  }

  /** The bot messages appended for a trimmed, non-empty message with route `r`:
      none when the university list is shown instead, one otherwise. */
  function BotReplies(r: Route, outcome: ApiOutcome): (ms: seq<Message>)
    ensures r == ShowUniversities <==> ms == []
    ensures r != ShowUniversities ==> |ms| == 1 && ms[0].from == Bot
    ensures r.Local? ==> ms == [Message(Bot, TopicAnswer(r.topic))]
    ensures r != Api ==> forall i :: 0 <= i < |ms| ==> !ms[i].IsHtml()
  {
    match r
    case ShowUniversities => []
    case Api => [EndpointMessage(outcome)]
    case Local(t) => [Message(Bot, TopicAnswer(t))]
  }

  /** The endpoint's reply as the widget sees it: rejections and soft errors
      carry `error`, an answer carries `reply`. */
  function ViewOf(r: ChatRoute.Reply): ApiOutcome {
    if r.Answer? then Body(false, Some(ChatRoute.TextOf(r.reply))) else Body(ChatRoute.ErrorText(r) != "", None)
  }

  /** The widget formats and shows the model's text exactly when the endpoint
      answered; every endpoint error becomes the contact message. */
  lemma EndpointRepliesShown(r: ChatRoute.Reply)
    ensures EndpointMessage(ViewOf(r)).IsHtml() <==> r.Answer?
    ensures r.Answer? && r.reply.ModelText? && r.reply.text != "" ==> EndpointMessage(ViewOf(r)).content == Formatted(r.reply.text)
    ensures !r.Answer? ==> EndpointMessage(ViewOf(r)).content == ConnectionTrouble
  {
    if !r.Answer? {
      ChatRoute.ErrorTextsDistinct(r);
    }
  }

  // ---------------------------------------------------------------------------
  // Bold and keyword rewriting
  // ---------------------------------------------------------------------------

  /** The end of the shortest `(.*?)` run starting at `k` that is followed by
      `**`: the scan fails at a line terminator, which `.` does not match. */
  function CloseFrom(s: string, k: nat): (r: Option<nat>)
    ensures r.Some? ==> k <= r.value && r.value + 2 <= |s| && s[r.value..r.value + 2] == "**"
    ensures r.Some? ==> forall j :: k <= j < r.value ==> !IsLineTerminator(s[j])
    decreases |s| - k
  {
    if k + 2 > |s| then None
    else if s[k..k + 2] == "**" then Some(k)
    else if IsLineTerminator(s[k]) then None
    else CloseFrom(s, k + 1)
  }

  // `s.replace(/\*\*(.*?)\*\*/g, "<strong>$1</strong>")`: each shortest marked span becomes bold.
  function Bold(s: string): string
    decreases |s|
  {
    if |s| < 2 then s
    else if s[..2] == "**" && CloseFrom(s, 2).Some? then
      var e := CloseFrom(s, 2).value;
      "<strong>" + s[2..e] + "</strong>" + Bold(s[e + 2..])
    else [s[0]] + Bold(s[1..])
  }

  /** Text without `**` is left as it is. */
  lemma {:induction false} BoldPlain(s: string)
    requires !Contains(s, "**")
    ensures Bold(s) == s
    decreases |s|
  {
    if |s| >= 2 {
      assert !MatchAt(s, "**", 0);
      if Contains(s[1..], "**") {
        ContainsSuffix(s, 1, "**");
      }
      BoldPlain(s[1..]);
    }
  }

  /** The run stops at the first `**` when nothing before it is a star or a line break. */
  lemma {:induction false} CloseFromReaches(s: string, k: nat, e: nat)
    requires k <= e && e + 2 <= |s| && s[e..e + 2] == "**"
    requires forall j :: k <= j < e ==> s[j] != '*' && !IsLineTerminator(s[j])
    ensures CloseFrom(s, k) == Some(e)
    decreases e - k
  {
    if k < e {
      assert s[k..k + 2] != "**" by {
        assert s[k] != '*';
      }
      CloseFromReaches(s, k + 1, e);
    }
  }

  /** A span of plain text between two markers becomes one `<strong>` element. */
  lemma BoldWraps(w: string, rest: string)
    requires forall j :: 0 <= j < |w| ==> w[j] != '*' && !IsLineTerminator(w[j])
    ensures Bold("**" + w + "**" + rest) == "<strong>" + w + "</strong>" + Bold(rest)
  {
    var s := "**" + w + "**" + rest;
    var e := 2 + |w|;
    assert s[e..e + 2] == "**";
    forall j | 2 <= j < e
      ensures s[j] != '*' && !IsLineTerminator(s[j])
    {
      assert s[j] == w[j - 2];
    }
    CloseFromReaches(s, 2, e);
    assert s[..2] == "**";
    assert s[2..e] == w;
    assert s[e + 2..] == rest;
  }

  /** `s.replace(/pat/gi, rep)` for a lower-case ASCII pattern: matches are
      found left to right without overlapping, ignoring ASCII case. */
  function ReplaceAllCI(s: string, pat: string, rep: string): string
    requires |pat| > 0
    decreases |s|
  {
    if |s| < |pat| then s
    else if Lower(s[..|pat|]) == pat then rep + ReplaceAllCI(s[|pat|..], pat, rep)
    else [s[0]] + ReplaceAllCI(s[1..], pat, rep)
  }

  /** Without a case-insensitive occurrence of the pattern nothing is replaced. */
  lemma {:induction false} ReplaceAllCIAbsent(s: string, pat: string, rep: string)
    requires |pat| > 0 && !Contains(Lower(s), pat)
    ensures ReplaceAllCI(s, pat, rep) == s
    decreases |s|
  {
    if |s| >= |pat| {
      assert Lower(s[..|pat|]) == Lower(s)[..|pat|];
      assert !MatchAt(Lower(s), pat, 0);
      assert Lower(s[1..]) == Lower(s)[1..];
      if Contains(Lower(s)[1..], pat) {
        ContainsSuffix(Lower(s), 1, pat);
      }
      ReplaceAllCIAbsent(s[1..], pat, rep);
    }
  }

  /** The keywords decorated with an icon, each with its replacement. */
  const IconRules: seq<(string, string)> := [
    ("study abroad", "<span class=\"inline-flex items-center gap-1\"><FaPlane class=\"inline text-blue-600\" />Study Abroad</span>"),
    ("visa", "<span class=\"inline-flex items-center gap-1\"><FaPassport class=\"inline text-green-600\" />Visa</span>"),
    ("university", "<span class=\"inline-flex items-center gap-1\"><FaUniversity class=\"inline text-purple-600\" />University</span>"),
    ("australia", "<span class=\"inline-flex items-center gap-1\"><IoIosFlag class=\"inline text-red-600\" />Australia</span>"),
    ("canada", "<span class=\"inline-flex items-center gap-1\"><FaMapMarkerAlt class=\"inline text-red-600\" />Canada</span>"),
    ("free counselling", "<span class=\"inline-flex items-center gap-1\"><FaComments class=\"inline text-green-600\" />Free Counselling</span>")
  ]

  /** The icon replacements applied one after the other, each to the result of the previous. */
  function ApplyIcons(s: string, rules: seq<(string, string)>): string
    requires forall k :: 0 <= k < |rules| ==> |rules[k].0| > 0
    decreases |rules|
  {
    if rules == [] then s else ApplyIcons(ReplaceAllCI(s, rules[0].0, rules[0].1), rules[1..])
  }

  /** `formatMessage`: bold first, then the icon keywords. */
  function FormatMessage(text: string): string {
    ApplyIcons(Bold(text), IconRules)
  }

  /** A reply with no markers and none of the keywords is shown as it is. */
  lemma FormatPlainText(text: string)
    requires !Contains(text, "**")
    requires forall k :: 0 <= k < |IconRules| ==> !Contains(Lower(text), IconRules[k].0)
    ensures FormatMessage(text) == text
  {
    BoldPlain(text);
    IconsAbsent(text, IconRules);
  }

  lemma {:induction false} IconsAbsent(s: string, rules: seq<(string, string)>)
    requires forall k :: 0 <= k < |rules| ==> |rules[k].0| > 0 && !Contains(Lower(s), rules[k].0)
    ensures ApplyIcons(s, rules) == s
    decreases |rules|
  {
    if rules != [] {
      ReplaceAllCIAbsent(s, rules[0].0, rules[0].1);
      IconsAbsent(s, rules[1..]);
    }
  }

  // ---------------------------------------------------------------------------
  // Rendering
  // ---------------------------------------------------------------------------

  /** What one message renders to: markup as it is, or one block per line. */
  datatype Block = Break | Line(html: string, spaced: bool) | Markup(html: string)

  function RenderLine(line: string, index: nat): Block {
    if Trim(line) == "" then Break else Line(Bold(line), index > 0)
  }

  /** `renderMessageContent` on a message's text and markup flag. */
  function Render(text: string, isHtml: bool): (r: seq<Block>)
    ensures isHtml ==> r == [Markup(text)]
    ensures !isHtml ==> |r| == |Split(text, "\n")|
    ensures !isHtml ==> forall i :: 0 <= i < |r| ==>
      (r[i].Break? <==> AllWhiteSpace(Split(text, "\n")[i]))
    ensures !isHtml ==> forall i :: 0 <= i < |r| && r[i].Line? ==>
      r[i].html == Bold(Split(text, "\n")[i]) && (r[i].spaced <==> i > 0)
  {
    if isHtml then [Markup(text)]
    else
      var lines := Split(text, "\n");
      var r := seq(|lines|, i requires 0 <= i < |lines| => RenderLine(lines[i], i));
      assert forall i :: 0 <= i < |r| ==> (r[i].Break? <==> AllWhiteSpace(lines[i])) by {
        forall i | 0 <= i < |r|
          ensures r[i].Break? <==> AllWhiteSpace(lines[i])
        {
          TrimEmptyIffAllWhiteSpace(lines[i]);
        }
      }
      r
  }

  /** A message as rendered in the log. */
  function RenderMessage(m: Message): seq<Block> {
    Render(m.Text(), m.IsHtml())
  }

  // ---------------------------------------------------------------------------
  // Category filters
  // ---------------------------------------------------------------------------

  /** Keep the items of the active category, or all of them for `"all"`. */
  function ByCategory<T(==)>(xs: seq<T>, category: T -> string, active: string): (r: seq<T>)
    ensures active == "all" ==> r == xs
    ensures forall i :: 0 <= i < |r| ==> r[i] in xs && (active == "all" || category(r[i]) == active)
    ensures forall i :: 0 <= i < |xs| && category(xs[i]) == active ==> xs[i] in r
  {
    var keep := (x: T) => active == "all" || category(x) == active;
    if active == "all" then FilterAll(xs, keep); Filter(xs, keep)
    else Filter(xs, keep)
  }

  /** The category filter keeps order: filtering a concatenation filters each part. */
  lemma ByCategoryAppend<T>(a: seq<T>, b: seq<T>, category: T -> string, active: string)
    ensures ByCategory(a + b, category, active) == ByCategory(a, category, active) + ByCategory(b, category, active)
  {
    FilterAppend(a, b, (x: T) => active == "all" || category(x) == active);
  }

  /** The universities listed for the active category. */
  function ShownUniversities(active: string): seq<University> {
    ByCategory(Universities, (u: University) => u.category, active)
  }

  /** The first `cap` items of the active category, in their order. */
  function Capped<T(==)>(xs: seq<T>, category: T -> string, active: string, cap: nat): (r: seq<T>)
    ensures |r| <= cap
    ensures forall i :: 0 <= i < |r| ==> r[i] in xs && (active == "all" || category(r[i]) == active)
    ensures |r| == if cap < |ByCategory(xs, category, active)| then cap else |ByCategory(xs, category, active)|
    ensures r == ByCategory(xs, category, active)[..|r|]
  {
    Take(ByCategory(xs, category, active), cap)
  }

  /** The quick-action buttons: at most six, of the active category. */
  function ShownQuickActions(active: string): seq<QuickAction> {
    Capped(QuickActions, (a: QuickAction) => a.category, active, 6)
  }

  /** Under "all" the cap hides the last two of the eight quick actions. */
  lemma AllCategoryCapped()
    ensures ShownQuickActions("all") == QuickActions[..6]
  {
  }

  /** Every quick action's query is non-blank, so pressing one always sends. */
  lemma QuickActionsSend(i: nat)
    requires i < |QuickActions|
    ensures Trim(QuickActions[i].query) != ""
  {
    var q := QuickActions[i].query;
    assert |q| > 0 && (q[|q| - 1] == '?' || q[|q| - 1] == 'a') by {
      if i == 0 { assert q == "Which Australian universities are you partnered with?";
      } else if i == 1 { assert q == "Tell me about studying in Canada";
      } else if i == 2 { assert q == "Do you help with visa filing and documentation?";
      } else if i == 3 { assert q == "Is the initial counselling really free?";
      } else if i == 4 { assert q == "What are your contact details for Canada and India offices?";
      } else if i == 5 { assert q == "Are your immigration consultants certified?";
      } else if i == 6 { assert q == "What is the admission process for studying abroad?";
      } else { assert q == "Do you provide scholarship assistance?";
      }
    }
    assert !IsWhiteSpace(q[|q| - 1]);
    TrimEmptyIffAllWhiteSpace(q);
  }

  /** The three tip buttons under the quick actions. */
  const QuickTips: seq<string> := [
    "What are the benefits of studying in Australia?",
    "How long does the visa process take?",
    "What documents are required for admission?"
  ]

  /** Every tip is non-blank, so pressing one always sends. */
  lemma QuickTipsSend(i: nat)
    requires i < |QuickTips|
    ensures Trim(QuickTips[i]) != ""
  {
    var q := QuickTips[i];
    assert |q| > 0 && q[|q| - 1] == '?' by {
      if i == 0 { assert q == "What are the benefits of studying in Australia?";
      } else if i == 1 { assert q == "How long does the visa process take?";
      } else { assert q == "What documents are required for admission?";
      }
    }
    assert !IsWhiteSpace(q[|q| - 1]);
    TrimEmptyIffAllWhiteSpace(q);
  }

  // ---------------------------------------------------------------------------
  // The widget state
  // ---------------------------------------------------------------------------

  /** The message composed for a chosen university. */
  function UniversityMessage(u: University): string {
    "**" + u.name + "** 🎓\n\n" + "**Country:** " + u.country + "\n" + "**Ranking:** " + u.ranking + "\n\n" +
    "**Popular Courses:**\n" + Bullets(u.popularCourses) + "\n\n" +
    "**Partnership:** Direct partnership with Nationwide\n" +
    "**Support:** Complete application and visa assistance\n\n" +
    "Interested in **" + u.name + "**? We provide complete support from application to arrival!"
  }

  /** The two effects that run after a render in which the open flag or the
      message count changed: the first, while the widget is open, shows the
      suggestions only for a fresh chat; the second hides them once there are
      more than two messages. */
  function SuggestionsAfter(shown: bool, open: bool, openChanged: bool, countChanged: bool, count: nat): (r: bool)
    ensures countChanged && count > 2 ==> !r
    ensures open && (openChanged || countChanged) && count <= 2 ==> r == (count <= 1)
    ensures !countChanged && !(open && openChanged) ==> r == shown
  {
    var afterOpen := if open && (openChanged || countChanged) then count <= 1 else shown;
    if countChanged && count > 2 then false else afterOpen
  }

  /** The suggestion chips are drawn only while at most two messages are logged. */
  predicate SuggestionsVisible(shown: bool, count: nat) {
    shown && count <= 2
  }

  class Widget {
    var isOpen: bool
    var messages: seq<Message>
    var input: string
    var isLoading: bool
    var showUniversitySelection: bool
    var showSuggestions: bool
    var activeCategory: string

    /** The log always starts with the greeting. */
    predicate Valid()
      reads this
    {
      |messages| >= 1 && messages[0] == Greeting
    }

    constructor()
      ensures Valid() && messages == [Greeting]
      ensures !isOpen && input == "" && !isLoading && !showUniversitySelection && showSuggestions
      ensures activeCategory == "all"
    {
      isOpen := false;
      messages := [Greeting];
      input := "";
      isLoading := false;
      showUniversitySelection := false;
      showSuggestions := true;
      activeCategory := "all";
    }

    /** The toggle button and the close buttons. */
    method SetOpen(open: bool)
      requires Valid()
      modifies this
      ensures Valid() && isOpen == open && messages == old(messages)
      ensures open && !old(isOpen) ==> showSuggestions == (|messages| <= 1)
      ensures !(open && !old(isOpen)) ==> showSuggestions == old(showSuggestions)
      ensures input == old(input) && isLoading == old(isLoading)
      ensures showUniversitySelection == old(showUniversitySelection) && activeCategory == old(activeCategory)
    {
      var wasOpen := isOpen;
      isOpen := open;
      showSuggestions := SuggestionsAfter(showSuggestions, isOpen, isOpen != wasOpen, false, |messages|);
    }

    /** Typing into the input box. */
    method SetInput(text: string)
      modifies this
      ensures input == text
      ensures messages == old(messages) && isOpen == old(isOpen) && isLoading == old(isLoading)
      ensures showUniversitySelection == old(showUniversitySelection) && showSuggestions == old(showSuggestions)
      ensures activeCategory == old(activeCategory)
    {
      input := text;
    }

    /** `handleSend`: a blank message does nothing; otherwise the trimmed text
        is appended as a user message, followed by the routed answer. Returns
        whether `/api/chat` was called. */
    method HandleSend(text: string, outcome: ApiOutcome) returns (called: bool)
      requires Valid()
      modifies this
      ensures Valid()
      ensures Trim(text) == "" ==> (!called && messages == old(messages) && input == old(input) &&
        isLoading == old(isLoading) && showSuggestions == old(showSuggestions) &&
        showUniversitySelection == old(showUniversitySelection))
      ensures Trim(text) != "" ==> (
        messages == old(messages) + [Message(User, Typed(Trim(text)))] + BotReplies(Classify(Trim(text)), outcome) &&
        called == (Classify(Trim(text)) == Api) &&
        input == "" && !isLoading && !showSuggestions &&
        showUniversitySelection == (old(showUniversitySelection) || Classify(Trim(text)) == ShowUniversities))
      ensures isOpen == old(isOpen) && activeCategory == old(activeCategory)
    {
      var messageText := Trim(text);
      if messageText == "" {
        called := false;
      } else {
        called := Deliver(messageText, Classify(messageText), outcome);
      }
    }

    /** The effects of sending a non-blank message whose route is `route`. */
    method Deliver(messageText: string, route: Route, outcome: ApiOutcome) returns (called: bool)
      requires Valid()
      modifies this
      ensures Valid()
      ensures messages == old(messages) + [Message(User, Typed(messageText))] + BotReplies(route, outcome)
      ensures called == (route == Api) && input == "" && !isLoading && !showSuggestions
      ensures showUniversitySelection == (old(showUniversitySelection) || route == ShowUniversities)
      ensures isOpen == old(isOpen) && activeCategory == old(activeCategory)
    {
      // the log grows, so both effects run: with at least two messages they hide the suggestions
      messages := messages + [Message(User, Typed(messageText))] + BotReplies(route, outcome);
      input, isLoading, showSuggestions := "", false, false;
      showUniversitySelection := showUniversitySelection || route == ShowUniversities;
      called := route == Api;
    }

    /** `handleQuickAction`: send `query` exactly as typed text is sent, so
        the effects are those of `HandleSend` (the scroll and the 100 ms
        delay are not modelled). */
    method HandleQuickAction(query: string, outcome: ApiOutcome) returns (called: bool)
      requires Valid()
      modifies this
      ensures Valid()
      ensures Trim(query) == "" ==> (!called && messages == old(messages) && input == old(input) &&
        isLoading == old(isLoading) && showSuggestions == old(showSuggestions) &&
        showUniversitySelection == old(showUniversitySelection))
      ensures Trim(query) != "" ==> (
        messages == old(messages) + [Message(User, Typed(Trim(query)))] + BotReplies(Classify(Trim(query)), outcome) &&
        called == (Classify(Trim(query)) == Api) &&
        input == "" && !isLoading && !showSuggestions &&
        showUniversitySelection == (old(showUniversitySelection) || Classify(Trim(query)) == ShowUniversities))
      ensures isOpen == old(isOpen) && activeCategory == old(activeCategory)
    {
      called := HandleSend(query, outcome);
    }

    /** `handleUniversitySelect`: hide the list and append one bot message. */
    method HandleUniversitySelect(u: University)
      requires Valid()
      modifies this
      ensures Valid()
      ensures messages == old(messages) + [Message(Bot, UniversityCard(u))]
      ensures !showUniversitySelection
      ensures isOpen ==> !showSuggestions
      ensures !isOpen ==> showSuggestions == (old(showSuggestions) && |messages| <= 2)
      ensures isOpen == old(isOpen) && input == old(input) && isLoading == old(isLoading) && activeCategory == old(activeCategory)
    {
      showUniversitySelection := false;
      messages := messages + [Message(Bot, UniversityCard(u))];
      showSuggestions := SuggestionsAfter(showSuggestions, isOpen, false, true, |messages|);
    }

    /** `clearChat`: back to the greeting alone, list hidden, suggestions
        shown, category "all". */
    method ClearChat()
      requires Valid()
      modifies this
      ensures Valid() && messages == [Greeting]
      ensures !showUniversitySelection && showSuggestions && activeCategory == "all"
      ensures isOpen == old(isOpen) && input == old(input) && isLoading == old(isLoading)
    {
      var count := |messages|;
      messages := [Greeting];
      showUniversitySelection := false;
      showSuggestions := true;
      activeCategory := "all";
      showSuggestions := SuggestionsAfter(showSuggestions, isOpen, false, |messages| != count, |messages|);
    }

    /** A category button. */
    method SetCategory(category: string)
      requires Valid()
      modifies this
      ensures Valid() && activeCategory == category
      ensures messages == old(messages) && isOpen == old(isOpen) && input == old(input) && isLoading == old(isLoading)
      ensures showUniversitySelection == old(showUniversitySelection) && showSuggestions == old(showSuggestions)
    {
      activeCategory := category;
    }
  }
}
