/** The symptom chat page: a rule-ordered keyword responder (`getAIResponse`)
    and the message log that `handleSendMessage` extends in two phases (the
    user's message at once, the assistant's reply when the timer fires). */
module HealthAssistant {
  import opened Wrappers
  import opened Strings

  /** The seven canned replies: one per keyword group, then the fallback. */
  datatype Response = Fever | Cough | Headache | Digestive | Dizziness | Skin | Fallback

  /** The keywords that select each reply, as the page tests them. */
  function Keywords(r: Response): seq<string>
  {
    match r
    case Fever => ["fever", "temperature"]
    case Cough => ["cough", "sore throat"]
    case Headache => ["headache", "head hurts"]
    case Digestive => ["stomach", "nausea", "diarrhea", "vomiting"]
    case Dizziness => ["dizzy", "diziness", "fainting"]
    case Skin => ["rash", "skin"]
    case Fallback => []
  }

  /** The order in which the page tests the keyword groups. */
  const Priority: seq<Response> := [Fever, Cough, Headache, Digestive, Dizziness, Skin]

  /** All fifteen keywords, group by group in priority order. */
  const AllKeywords: seq<string> :=
    Keywords(Fever) + Keywords(Cough) + Keywords(Headache)
    + Keywords(Digestive) + Keywords(Dizziness) + Keywords(Skin)

  /** Some keyword of group `r` occurs in the (lower-cased) input. */
  predicate Mentions(lower: string, r: Response)
  {
    match r
    case Fever => Contains(lower, "fever") || Contains(lower, "temperature")
    case Cough => Contains(lower, "cough") || Contains(lower, "sore throat")
    case Headache => Contains(lower, "headache") || Contains(lower, "head hurts")
    case Digestive =>
      Contains(lower, "stomach") || Contains(lower, "nausea")
      || Contains(lower, "diarrhea") || Contains(lower, "vomiting")
    case Dizziness => Contains(lower, "dizzy") || Contains(lower, "diziness") || Contains(lower, "fainting")
    case Skin => Contains(lower, "rash") || Contains(lower, "skin")
    case Fallback => false
  }

  /** `Mentions` is "some keyword of the group's list occurs". */
  lemma MentionsIff(lower: string, r: Response)
    ensures Mentions(lower, r) <==> exists k :: k in Keywords(r) && Contains(lower, k)
  {
    var ks := Keywords(r);
    if exists k :: k in ks && Contains(lower, k) {
      var k :| k in ks && Contains(lower, k);
      match r
      case Fever => assert k == "fever" || k == "temperature";
      case Cough => assert k == "cough" || k == "sore throat";
      case Headache => assert k == "headache" || k == "head hurts";
      case Digestive => assert k == "stomach" || k == "nausea" || k == "diarrhea" || k == "vomiting";
      case Dizziness => assert k == "dizzy" || k == "diziness" || k == "fainting";
      case Skin => assert k == "rash" || k == "skin";
      case Fallback =>
    }
    if Mentions(lower, r) {
      match r
      case Fever =>
        if Contains(lower, "fever") { assert ks[0] == "fever"; }
        if Contains(lower, "temperature") { assert ks[1] == "temperature"; }
      case Cough =>
        if Contains(lower, "cough") { assert ks[0] == "cough"; }
        if Contains(lower, "sore throat") { assert ks[1] == "sore throat"; }
      case Headache =>
        if Contains(lower, "headache") { assert ks[0] == "headache"; }
        if Contains(lower, "head hurts") { assert ks[1] == "head hurts"; }
      case Digestive =>
        if Contains(lower, "stomach") { assert ks[0] == "stomach"; }
        if Contains(lower, "nausea") { assert ks[1] == "nausea"; }
        if Contains(lower, "diarrhea") { assert ks[2] == "diarrhea"; }
        if Contains(lower, "vomiting") { assert ks[3] == "vomiting"; }
      case Dizziness =>
        if Contains(lower, "dizzy") { assert ks[0] == "dizzy"; }
        if Contains(lower, "diziness") { assert ks[1] == "diziness"; }
        if Contains(lower, "fainting") { assert ks[2] == "fainting"; }
      case Skin =>
        if Contains(lower, "rash") { assert ks[0] == "rash"; }
        if Contains(lower, "skin") { assert ks[1] == "skin"; }
      case Fallback =>
    }
  }

  /** Position of each reply in the priority order; the fallback comes last. */
  function Rank(r: Response): (n: nat)
    ensures n <= |Priority|
    ensures r != Fallback ==> n < |Priority| && Priority[n] == r
    ensures r == Fallback <==> n == |Priority|
  {
    match r
    case Fever => 0
    case Cough => 1
    case Headache => 2
    case Digestive => 3
    case Dizziness => 4
    case Skin => 5
    case Fallback => 6
  }

  /** The page's if-chain over the lower-cased input: the first group with a
      keyword present wins, and the fallback answers when none is. */
  function Classify(lower: string): (r: Response)
    ensures r != Fallback ==> Mentions(lower, r)
    ensures r == Fallback ==> forall q :: !Mentions(lower, q)
  {
    if Contains(lower, "fever") || Contains(lower, "temperature") then Fever
    else if Contains(lower, "cough") || Contains(lower, "sore throat") then Cough
    else if Contains(lower, "headache") || Contains(lower, "head hurts") then Headache
    else if Contains(lower, "stomach") || Contains(lower, "nausea")
         || Contains(lower, "diarrhea") || Contains(lower, "vomiting") then Digestive
    else if Contains(lower, "dizzy") || Contains(lower, "diziness") || Contains(lower, "fainting") then Dizziness
    else if Contains(lower, "rash") || Contains(lower, "skin") then Skin
    else Fallback
  }

  /** The text of each reply. */
  const FeverReply: string :=
    "Fever can be a symptom of many conditions, including viral infections like flu or COVID-19, bacterial infections, or inflammatory conditions. Monitor your temperature regularly. If it exceeds 103°F (39.4°C) or persists for more than three days, please consult a healthcare provider. In the meantime, stay hydrated and rest."

  const CoughReply: string :=
    "Coughing and sore throat are common symptoms of upper respiratory infections, allergies, or irritation. For relief, try drinking warm liquids, using throat lozenges, or taking over-the-counter pain relievers. If symptoms persist for more than a week, worsen suddenly, or are accompanied by difficulty breathing, please seek medical attention."

  const HeadacheReply: string :=
    "Headaches can be caused by stress, dehydration, eyestrain, or illness. Try resting in a quiet, dark room, staying hydrated, and taking appropriate over-the-counter pain relievers. If your headache is severe, sudden, or accompanied by fever, confusion, stiff neck, or vision problems, please seek immediate medical attention as these could indicate a more serious condition."

  const DigestiveReply: string :=
    "Digestive issues can be caused by food poisoning, viral gastroenteritis, or other conditions. It's important to stay hydrated with small sips of water or electrolyte solutions. Stick to bland foods like rice, toast, or bananas when you can eat. If symptoms persist beyond 48 hours, include severe pain, or if you notice blood, please consult a healthcare provider immediately."

  const DizzinessReply: string :=
    "Dizziness can be caused by dehydration, inner ear issues, low blood sugar, or more serious conditions. Make sure you're staying hydrated and eating regularly. Sit or lie down when feeling dizzy to prevent falls. If dizziness is severe, recurrent, or accompanied by other symptoms like chest pain or severe headache, please seek immediate medical attention."

  const SkinReply: string :=
    "Skin rashes can be caused by allergic reactions, infections, or other conditions. Avoid scratching and apply cool compresses for comfort. Over-the-counter hydrocortisone cream might help with itching. If the rash is widespread, painful, blistering, or accompanied by fever or difficulty breathing, please seek immediate medical attention as this could indicate a severe allergic reaction."

  const FallbackReply: string :=
    "Based on the symptoms you've described, it could be a number of different conditions. To get a better understanding, could you provide more details about:\n\n- When did your symptoms start?\n- Have you been in contact with anyone who's sick?\n- Do you have any pre-existing health conditions?\n\nRemember, this is just basic guidance and not a replacement for professional medical advice. If your symptoms are severe or persistent, please consult a healthcare provider."

  function ResponseText(r: Response): string
  {
    match r
    case Fever => FeverReply
    case Cough => CoughReply
    case Headache => HeadacheReply
    case Digestive => DigestiveReply
    case Dizziness => DizzinessReply
    case Skin => SkinReply
    case Fallback => FallbackReply
  }

  /** `getAIResponse`: lower-case the input, then answer by the first
      matching group. */
  function GetAIResponse(userInput: string): (reply: string)
    ensures exists r :: reply == ResponseText(r)
    ensures Mentions(ToLower(userInput), Fever) ==> reply == FeverReply
    ensures (forall q :: !Mentions(ToLower(userInput), q)) ==> reply == FallbackReply
  {
    ResponseText(Classify(ToLower(userInput)))
  }

  /** Reference definition: the position in `order` of the first group the
      input mentions, found by scanning the table. */
  function FirstMentioned(order: seq<Response>, lower: string): (r: Option<nat>)
    ensures r.Some? ==> && r.value < |order| && Mentions(lower, order[r.value])
                        && forall j :: 0 <= j < r.value ==> !Mentions(lower, order[j])
    ensures r.None? ==> forall j :: 0 <= j < |order| ==> !Mentions(lower, order[j])
  {
    if order == [] then None
    else if Mentions(lower, order[0]) then Some(0)
    else match FirstMentioned(order[1..], lower)
      case None => None
      case Some(i) => Some(i + 1)
  }

  /** The reply chosen by scanning the priority table. */
  function ByPriority(lower: string): Response
  {
    match FirstMentioned(Priority, lower)
    case None => Fallback
    case Some(i) => Priority[i]
  }

  /** The scan returns position `k` when group `k` is the first one mentioned. */
  lemma FirstMentionedAt(order: seq<Response>, lower: string, k: nat)
    requires k < |order| && Mentions(lower, order[k])
    requires forall j :: 0 <= j < k ==> !Mentions(lower, order[j])
    ensures FirstMentioned(order, lower) == Some(k)
  {
  }

  /** The if-chain and the table scan choose the same reply on every input. */
  lemma ClassifyIsTableScan(lower: string)
    ensures Classify(lower) == ByPriority(lower)
  {
    var c := Classify(lower);
    if c != Fallback {
      FirstMentionedAt(Priority, lower, Rank(c));
    }
  }

  /** First match wins: a group's reply is chosen exactly when one of its
      keywords occurs and no keyword of an earlier group does. */
  lemma ClassifyPriority(lower: string, r: Response)
    requires r != Fallback
    ensures Classify(lower) == r
        <==> Mentions(lower, r) && forall q :: Rank(q) < Rank(r) ==> !Mentions(lower, q)
  {
    ClassifyIsTableScan(lower);
    var n := Rank(r);
    var found := FirstMentioned(Priority, lower);
    if Classify(lower) == r {
      assert found == Some(n);
      forall q | Rank(q) < n ensures !Mentions(lower, q) {
        assert Priority[Rank(q)] == q;
      }
    }
    if Mentions(lower, r) && forall q :: Rank(q) < Rank(r) ==> !Mentions(lower, q) {
      forall j | 0 <= j < n ensures !Mentions(lower, Priority[j]) {
        assert Rank(Priority[j]) == j;
      }
      FirstMentionedAt(Priority, lower, n);
    }
  }

  /** The fifteen keywords, spelled out. */
  lemma AllKeywordsListed()
    ensures AllKeywords == ["fever", "temperature", "cough", "sore throat", "headache", "head hurts", "stomach",
                           "nausea", "diarrhea", "vomiting", "dizzy", "diziness", "fainting", "rash", "skin"]
  {
  }

  lemma NoKeywordMeansFallback(lower: string)
    requires forall k :: k in AllKeywords ==> !Contains(lower, k)
    ensures Classify(lower) == Fallback
  {
    AllKeywordsListed();
    assert !Contains(lower, AllKeywords[0]);
    assert !Contains(lower, AllKeywords[1]);
    assert !Contains(lower, AllKeywords[2]);
    assert !Contains(lower, AllKeywords[3]);
    assert !Contains(lower, AllKeywords[4]);
    assert !Contains(lower, AllKeywords[5]);
    assert !Contains(lower, AllKeywords[6]);
    assert !Contains(lower, AllKeywords[7]);
    assert !Contains(lower, AllKeywords[8]);
    assert !Contains(lower, AllKeywords[9]);
    assert !Contains(lower, AllKeywords[10]);
    assert !Contains(lower, AllKeywords[11]);
    assert !Contains(lower, AllKeywords[12]);
    assert !Contains(lower, AllKeywords[13]);
    assert !Contains(lower, AllKeywords[14]);
  }

  lemma FallbackMeansNoKeyword(lower: string)
    requires Classify(lower) == Fallback
    ensures forall k :: k in AllKeywords ==> !Contains(lower, k)
  {
    AllKeywordsListed();
    forall k | k in AllKeywords ensures !Contains(lower, k) {
      var i :| 0 <= i < |AllKeywords| && AllKeywords[i] == k;
    }
  }

  /** The fallback answers exactly the inputs that contain none of the
      fifteen keywords. */
  lemma FallbackIffNoKeyword(lower: string)
    ensures |AllKeywords| == 15
    ensures Classify(lower) == Fallback <==> forall k :: k in AllKeywords ==> !Contains(lower, k)
  {
    AllKeywordsListed();
    if Classify(lower) == Fallback {
      FallbackMeansNoKeyword(lower);
    }
    if forall k :: k in AllKeywords ==> !Contains(lower, k) {
      NoKeywordMeansFallback(lower);
    }
  }

  /** An input mentioning both a fever and a cough gets the fever reply. */
  lemma FeverBeatsCough(userInput: string)
    requires Contains(ToLower(userInput), "fever") && Contains(ToLower(userInput), "cough")
    ensures Classify(ToLower(userInput)) == Fever
    ensures GetAIResponse(userInput) == ResponseText(Fever)
  {
  }

  /** The dizziness group lists the misspelling "diziness", so it does not
      recognise the correctly spelled word: "dizziness" never gets the
      dizziness reply. */
  lemma DizzinessNotRecognised(w: string)
    requires w == "dizziness"
    ensures !Mentions(w, Dizziness)
    ensures Classify(w) != Dizziness
  {
    AbsentCharNotContained(w, "dizzy", 4);
    AbsentCharNotContained(w, "fainting", 0);
    ContainsIff(w, "diziness");
    MismatchNotAt(w, "diziness", 0, 3);
    MismatchNotAt(w, "diziness", 1, 0);
  }

  /** The reply depends only on the lower-cased input. */
  lemma ResponseIgnoresCase(userInput: string)
    ensures GetAIResponse(ToLower(userInput)) == GetAIResponse(userInput)
  {
    ToLowerIdempotent(userInput);
  }

  // ---------------------------------------------------------------------
  // The conversation log

  /** One entry of the log; the timestamp is not modelled. */
  datatype Message = Message(text: string, isAI: bool)

  const GreetingText: string :=
    "Hello! I'm your Health Assistant. I can help you understand your symptoms and provide basic health guidance. Note that I'm not a replacement for professional medical advice. What symptoms are you experiencing?"

  const Greeting: Message := Message(GreetingText, true)

  /** The log after the greeting and one completed turn per submitted text:
      each user message is followed by the reply to that very text. */
  function Transcript(turns: seq<string>): (log: seq<Message>)
    ensures |log| == 2 * |turns| + 1
    ensures log[0] == Greeting
  {
    if turns == [] then [Greeting]
    else
      var last := turns[|turns| - 1];
      Transcript(turns[..|turns| - 1]) + [Message(last, false), Message(GetAIResponse(last), true)]
  }

  /** The shape of a transcript: the greeting, then for turn `k` the user's
      text at position `2k + 1` and the reply to it at position `2k + 2`. */
  lemma {:induction false} TranscriptAt(turns: seq<string>, k: nat)
    requires k < |turns|
    ensures |Transcript(turns)| == 2 * |turns| + 1
    ensures Transcript(turns)[0] == Greeting
    ensures Transcript(turns)[2 * k + 1] == Message(turns[k], false)
    ensures Transcript(turns)[2 * k + 2] == Message(GetAIResponse(turns[k]), true)
  {
    var n := |turns|;
    var prev := turns[..n - 1];
    var last := turns[n - 1];
    var t := Transcript(prev);
    assert Transcript(turns) == t + [Message(last, false), Message(GetAIResponse(last), true)];
    if k < n - 1 {
      TranscriptAt(prev, k);
      assert prev[k] == turns[k];
    } else {
      assert 2 * k + 1 == |t|;
    }
  }

  /** A new turn only appends: the earlier log is a prefix of the new one. */
  lemma TranscriptGrows(turns: seq<string>, text: string)
    ensures Transcript(turns) <= Transcript(turns + [text])
  {
    assert (turns + [text])[..|turns|] == turns;
  }

  /** The chat page's state: the log, the text field, the typing indicator
      and the text whose reply the pending timer will post. */
  class Assistant {
    var messages: seq<Message>
    var input: string
    var isLoading: bool
    var pending: string
    ghost var turns: seq<string>

    /** The log is the transcript of the completed turns, followed by the
        user's message while its reply is pending; the text field is empty
        while a reply is pending. */
    ghost predicate Valid()
      reads this
    {
      && (forall t :: t in turns ==> !IsBlank(t))
      && (isLoading ==> input == "" && !IsBlank(pending))
      && messages == Transcript(turns) + (if isLoading then [Message(pending, false)] else [])
    }

    /** The page opens with the greeting alone and an empty text field. */
    constructor ()
      ensures Valid()
      ensures messages == [Greeting] && input == "" && !isLoading && turns == []
    {
      messages := [Greeting];
      input := "";
      isLoading := false;
      pending := "";
      turns := [];
    }

    /** The submit button is enabled (line 144 of the page). */
    predicate CanSubmit()
      reads this
    {
      !isLoading && !IsBlank(input)
    }

    /** Typing into the text field; the field is disabled while a reply is
        pending. */
    method SetInput(text: string)
      requires Valid()
      modifies this`input
      ensures Valid()
      ensures input == if isLoading then old(input) else text
    {
      if !isLoading {
        input := text;
      }
    }

    /** First phase of `handleSendMessage`: a blank text changes nothing;
        otherwise the user's message is appended, the field cleared and the
        reply scheduled. */
    method Submit()
      requires Valid()
      modifies this
      ensures Valid()
      ensures old(IsBlank(input)) ==> unchanged(this)
      ensures !old(IsBlank(input)) ==>
        && messages == old(messages) + [Message(old(input), false)]
        && input == "" && isLoading && pending == old(input) && turns == old(turns)
      ensures old(isLoading) ==> unchanged(this)
      ensures old(messages) <= messages
      ensures messages != old(messages) <==> old(CanSubmit())
    {
      if IsBlank(input) {
        return;
      }
      messages := messages + [Message(input, false)];
      pending := input;
      input := "";
      isLoading := true;
    }

    /** Second phase, when the timer fires: the reply to the submitted text
        is appended and the typing indicator cleared. */
    method Resolve()
      requires Valid()
      modifies this
      ensures Valid()
      ensures !old(isLoading) ==> unchanged(this)
      ensures old(isLoading) ==>
        && messages == old(messages) + [Message(GetAIResponse(old(pending)), true)]
        && !isLoading && input == old(input) && turns == old(turns) + [old(pending)]
      ensures old(messages) <= messages
    {
      if !isLoading {
        return;
      }
      turns := turns + [pending];
      messages := messages + [Message(GetAIResponse(pending), true)];
      isLoading := false;
    }
  }

  // ---------------------------------------------------------------------
  // How the page renders a log entry

  /** The styles `ChatMessage` can give an entry. */
  datatype MessageType = General | Warning | Success | Info

  /** The properties the page passes to `ChatMessage` for one entry: it never
      passes a `messageType`. */
  datatype ChatMessageProps = ChatMessageProps(message: string, isAI: bool, messageType: Option<MessageType>)

  function PropsOf(m: Message): ChatMessageProps
  {
    ChatMessageProps(m.text, m.isAI, None)
  }

  /** The style `ChatMessage` uses: the given type, `General` by default. */
  function EffectiveType(p: ChatMessageProps): MessageType
  {
    match p.messageType
    case Some(t) => t
    case None => General
  }

  /** Every entry of every log, assistant replies included, is shown in the
      general style. */
  lemma AllEntriesShownGeneral(log: seq<Message>)
    ensures forall i :: 0 <= i < |log| ==> EffectiveType(PropsOf(log[i])) == General
  {
  }
}
