/**
 * The farming assistant chat: an offline keyword responder over an ordered knowledge base
 * (first entry with a whole-word keyword match wins), the classification of the online
 * service's answer into a display string, the speech-language codes, and the message log that a
 * send updates.
 */
module Chatbot {
  import opened Wrappers
  import opened Text
  import Gemini

  // ---------------------------------------------------------------------------
  // Whole-word keyword matching

  /** The characters `\w` matches (ASCII letters, digits and underscore). */
  predicate IsWordChar(c: char) {
    'a' <= c <= 'z' || 'A' <= c <= 'Z' || '0' <= c <= '9' || c == '_'
  }

  /** `\bk\b` matches at `i` for a keyword `k` that starts and ends with word characters: `k`
      occurs at `i`, with no word character just before or just after it. */
  predicate WholeWordAt(s: string, k: string, i: int) {
    && OccursAt(s, k, i)
    && (i == 0 || !IsWordChar(s[i - 1]))
    && (i + |k| == |s| || !IsWordChar(s[i + |k|]))
  }

  /** `new RegExp('\\b' + k + '\\b', 'i').test(s)`: some position holds a whole-word match. */
  predicate MatchesWholeWord(s: string, k: string) {
    exists i :: 0 <= i <= |s| && WholeWordAt(s, k, i)
  }

  // ---------------------------------------------------------------------------
  // The knowledge base and the local responder

  datatype Entry = Entry(keywords: seq<string>, response: string)

  /** `KNOWLEDGE_BASE`, in table order; the greeting is the translated `namaste` text. */
  function KnowledgeBase(greeting: string): (r: seq<Entry>)
    ensures |r| == 10
    ensures r[0] == Entry(GreetingKeywords, greeting)
    ensures r[1..] == FixedEntries
  {
    [Entry(GreetingKeywords, greeting)] + FixedEntries
  }

  const GreetingKeywords: seq<string> := ["hi", "hello", "namaste", "hey"]

  /** The entries after the greeting. */
  const FixedEntries: seq<Entry> := [
    Entry(["wheat", "gehu"], WheatAnswer),
    Entry(["rice", "paddy", "dhan"], PaddyAnswer),
    Entry(["tomato", "tamatar"], TomatoAnswer),
    Entry(["summer", "zaid"], SummerAnswer),
    Entry(["fertilizer", "khad", "urea", "npk"], FertilizerAnswer),
    Entry(["pest", "insect", "bug", "worm"], PestAnswer),
    Entry(["anthracnose", "fungus", "fungicide", "blight", "rust", "disease"], FungalAnswer),
    Entry(["weather", "rain"], WeatherAnswer),
    Entry(["price", "rate", "mandi"], PriceAnswer)
  ]

  const PaddyAnswer: string :=
    "Paddy needs standing water. Transplanting is done in Kharif (June-July). Nitrogen application is crucial at tillering stage."
  const TomatoAnswer: string :=
    "Tomatoes thrive in warm soil. Watch out for Early Blight. Staking helps improve fruit quality."
  const SummerAnswer: string :=
    "Best crops for summer (Zaid season) are Watermelon, Muskmelon, Cucumber, Pumpkin, and Moong Dal. Ensure good irrigation."
  const FertilizerAnswer: string :=
    "Soil testing is recommended before applying fertilizer. Generally, NPK 4:2:1 ratio is good for grains."
  const PestAnswer: string :=
    "For pests, first identify the insect. Neem oil spray is a good organic deterrent using 5ml/liter water. For severe infestation, consult a local expert."
  const WeatherAnswer: string :=
    "I can't check live weather yet, but usually, monsoon starts in June. Ensure drainage if heavy rain is expected."
  const PriceAnswer: string :=
    "For exact prices, please visit the 'Price Forecasting' section in the app. Prices change daily based on demand."
  const WheatAnswer: string :=
    "Wheat is a Rabi crop. Best sown in Nov-Dec. Requires cool climate and 4-5 irrigations. Recommended variety: HD-2967."
  const FungalAnswer: string :=
    "For fungal diseases like Anthracnose or Blight, you can use fungicides like Mancozeb (2.5g/L) or Carbendazim (1g/L). Ensure good drainage."
  const LocalFallback: string :=
    "I'm using local knowledge. For better answers, please add a Google Gemini API Key in settings."

  /** `entry.keywords.some(k => ...)`. */
  predicate EntryMatches(s: string, e: Entry) {
    exists j :: 0 <= j < |e.keywords| && MatchesWholeWord(s, e.keywords[j])
  }

  /** The index of the first entry from `from` on that matches `s`. */
  function FirstMatch(s: string, kb: seq<Entry>, from: nat): (r: Option<nat>)
    requires from <= |kb|
    ensures r.Some? ==> from <= r.value < |kb| && EntryMatches(s, kb[r.value])
    ensures r.Some? ==> forall j :: from <= j < r.value ==> !EntryMatches(s, kb[j])
    ensures r.None? ==> forall j :: from <= j < |kb| ==> !EntryMatches(s, kb[j])
    decreases |kb| - from
  {
    if from == |kb| then None
    else if EntryMatches(s, kb[from]) then Some(from)
    else FirstMatch(s, kb, from + 1)
  }

  /** What the local responder answers: the response of the first entry, in table order, with a
      keyword matching the lowercased text as a whole word, or the fixed fallback. */
  function LocalResponse(text: string, greeting: string): (r: string)
    ensures forall i :: (0 <= i < |KnowledgeBase(greeting)|
                         && EntryMatches(Lower(text), KnowledgeBase(greeting)[i])
                         && (forall j :: 0 <= j < i ==> !EntryMatches(Lower(text), KnowledgeBase(greeting)[j])))
                        ==> r == KnowledgeBase(greeting)[i].response
    ensures (forall j :: 0 <= j < |KnowledgeBase(greeting)| ==> !EntryMatches(Lower(text), KnowledgeBase(greeting)[j]))
      ==> r == LocalFallback
  {
    var kb := KnowledgeBase(greeting);
    match FirstMatch(Lower(text), kb, 0)
    case None => LocalFallback
    case Some(i) => kb[i].response
  }

  /** `generateLocalResponse`: the scan with early return. */
  method GenerateLocalResponse(text: string, greeting: string) returns (r: string)
    ensures r == LocalResponse(text, greeting)
  {
    var lowerText := Lower(text);
    var kb := KnowledgeBase(greeting);
    var idx := 0;
    while idx < |kb|
      invariant 0 <= idx <= |kb|
      invariant forall j :: 0 <= j < idx ==> !EntryMatches(lowerText, kb[j])
    {
      if EntryMatches(lowerText, kb[idx]) {
        return kb[idx].response;
      }
      idx := idx + 1;
    }
    return LocalFallback;
  }

  /** The responder ignores ASCII case. */
  lemma LocalResponseIgnoresCase(text: string, greeting: string)
    ensures LocalResponse(Lower(text), greeting) == LocalResponse(text, greeting)
  {
    LowerIdempotent(text);
  }

  /** A keyword with a character the text lacks never matches. */
  lemma AbsentCharNoMatch(s: string, k: string, c: char)
    requires c in k && c !in s
    ensures !MatchesWholeWord(s, k)
  {
  }

  const RustQuestion: string := "my wheat has rust"

  lemma RustQuestionLowered()
    ensures Lower("My wheat has rust") == RustQuestion
  {
    var x := "My wheat has rust";
    assert x == ['M'] + RustQuestion[1..];
    assert Lower(x) == [LowerChar('M')] + Lower(RustQuestion[1..]);
  }

  lemma RustQuestionNoHey()
    ensures !MatchesWholeWord(RustQuestion, "hey")
  {
    var rest := RustQuestion[2..];
    assert rest == " wheat has rust";
    assert 'y' !in rest;
    forall i | 0 <= i <= |RustQuestion| ensures !OccursAt(RustQuestion, "hey", i) {
      if i + 3 <= |RustQuestion| {
        assert RustQuestion[i..i + 3][2] == rest[i] != 'y';
      }
    }
  }

  lemma RustQuestionNoGreeting(greeting: string)
    ensures !EntryMatches(RustQuestion, KnowledgeBase(greeting)[0])
  {
    AbsentCharNoMatch(RustQuestion, "hi", 'i');
    AbsentCharNoMatch(RustQuestion, "hello", 'o');
    AbsentCharNoMatch(RustQuestion, "namaste", 'n');
    RustQuestionNoHey();
  }

  lemma RustQuestionNamesWheat(greeting: string)
    ensures EntryMatches(RustQuestion, KnowledgeBase(greeting)[1])
  {
    assert RustQuestion[3..8] == "wheat";
    assert WholeWordAt(RustQuestion, "wheat", 3);
    assert KnowledgeBase(greeting)[1].keywords[0] == "wheat";
  }

  /** Table order wins over specificity: "rust" is a fungal keyword, but the wheat entry comes
      first. */
  lemma WheatBeforeFungus(greeting: string)
    ensures LocalResponse("My wheat has rust", greeting) == WheatAnswer
  {
    RustQuestionLowered();
    RustQuestionNoGreeting(greeting);
    RustQuestionNamesWheat(greeting);
  }

  /** Whole words only: "hi" occurs inside "this" but does not match it. */
  lemma NoMatchInsideWord()
    ensures Contains("this", "hi")
    ensures !MatchesWholeWord("this", "hi")
  {
    assert OccursAt("this", "hi", 1);
    ContainsIff("this", "hi");
    forall i | 0 <= i ensures !WholeWordAt("this", "hi", i) {
      if OccursAt("this", "hi", i) {
        assert "this"[i] == 'h';
      }
    }
  }

  // ---------------------------------------------------------------------------
  // The online reply

  const CouldNotGenerate: string := "Sorry, I couldn't generate a response."
  const CouldNotConnect: string := "Sorry, I couldn't connect to the server."

  const ChatOpening: string :=
    "You are a helpful farming assistant for Indian farmers. \n            Answer the following question about agriculture in "
  const ChatQuestion: string := ". \n            Keep your response concise and practical.\n\n            Question: "

  /** The chat prompt: it asks for the answer in the language the code names and ends with the
      question as typed. */
  function ChatPrompt(language: string, userText: string): (r: string)
    ensures Contains(r, Gemini.LanguageName(language))
    ensures |r| >= |userText| && r[|r| - |userText|..] == userText
  {
    ContainsMiddle(ChatOpening + Gemini.LanguageName(language) + ChatQuestion + userText,
                   ChatOpening, Gemini.LanguageName(language), ChatQuestion + userText);
    ChatOpening + Gemini.LanguageName(language) + ChatQuestion + userText
  }

  /** `fetchGeminiResponse` given the exchange: it never throws; the displayed text is `None`
      when the first part has no text (`undefined`). The response status is not consulted. */
  function ChatReply(ex: Gemini.Exchange): (r: Option<string>)
    ensures ex.NetworkFailure? ==> r == Some(CouldNotConnect)
    ensures ex.Response? && ex.body.NotJson? ==> r == Some(CouldNotConnect)
    ensures ex.Response? && ex.body.Json? && ex.body.error.Some? ==>
      r == Some("Error: " + ex.body.error.value.message.GetOr("undefined") + ".")
    ensures ex.Response? && ex.body.Json? && ex.body.error.None? && Gemini.FirstContent(ex.body.candidates).None? ==>
      r == Some(CouldNotGenerate)
    ensures r.None? ==>
      ex.Response? && ex.body.Json? && ex.body.error.None? && Gemini.FirstContent(ex.body.candidates).Some?
    ensures ex.Response? && ex.body.Json? && ex.body.error.None? && Gemini.FirstContent(ex.body.candidates).Some? ==>
      var c := Gemini.FirstContent(ex.body.candidates).value;
      && (c.parts.None? || c.parts == Some([]) ==> r == Some(CouldNotConnect))
      && (c.parts.Some? && |c.parts.value| > 0 ==> r == c.parts.value[0].text)
  {
    match ex
    case NetworkFailure(_) => Some(CouldNotConnect)
    case Response(_, _, body) =>
      match body
      case NotJson(_) => Some(CouldNotConnect)
      case Json(err, candidates) =>
        if err.Some? then Some("Error: " + err.value.message.GetOr("undefined") + ".")
        else match Gemini.FirstContent(candidates)
          case None => Some(CouldNotGenerate)
          case Some(content) =>
            match Gemini.FirstPartText(content)
            case Failure(_) => Some(CouldNotConnect)
            case Success(text) => text
  }

  /** A reply that carries text shows exactly that text, whatever the status. */
  lemma ChatReplyShowsModelText(ok: bool, status: nat, text: string, rest: seq<Gemini.Part>)
    ensures ChatReply(Gemini.Response(ok, status, Gemini.Json(None,
      Some([Gemini.Candidate(Some(Gemini.Content(Some([Gemini.Part(Some(text))] + rest))))])))) == Some(text)
  {
  }

  /** Unlike the disease analysis, the chat reads a non-OK response's body like an OK one. */
  lemma ChatReplyIgnoresStatus(ok1: bool, status1: nat, ok2: bool, status2: nat, body: Gemini.Body)
    ensures ChatReply(Gemini.Response(ok1, status1, body)) == ChatReply(Gemini.Response(ok2, status2, body))
  {
  }

  /** A displayed reply that is none of the fixed texts is the first part's own text. */
  lemma ChatReplyShapes(ex: Gemini.Exchange)
    ensures var r := ChatReply(ex);
      || r == Some(CouldNotConnect)
      || r == Some(CouldNotGenerate)
      || (r.Some? && |r.value| >= 8 && r.value[..7] == "Error: " && r.value[|r.value| - 1] == '.')
      || (ex.Response? && ex.body.Json? && Gemini.FirstContent(ex.body.candidates).Some?
          && Gemini.FirstPartText(Gemini.FirstContent(ex.body.candidates).value) == Success(r))
  {
    if ex.Response? && ex.body.Json? && ex.body.error.Some? {
      var m := ex.body.error.value.message.GetOr("undefined");
      var r := "Error: " + m + ".";
      assert r[..7] == "Error: ";
    }
  }

  // ---------------------------------------------------------------------------
  // Speech language

  const SpeechLangs: map<string, string> := map[
    "en" := "en-IN", "hi" := "hi-IN", "te" := "te-IN", "ta" := "ta-IN",
    "mr" := "mr-IN", "bn" := "bn-IN", "gu" := "gu-IN"
  ]

  /** `langMap[language] || 'en-IN'`, for both speaking and listening. */
  function SpeechLang(code: string): (r: string)
    ensures code in SpeechLangs ==> r == SpeechLangs[code]
    ensures code !in SpeechLangs ==> r == "en-IN"
    ensures |r| == 5 && r[2..] == "-IN"
  {
    if code in SpeechLangs then SpeechLangs[code] else "en-IN"
  }

  /** The speech codes cover seven of the twelve prompt languages; the others (Kannada, Malayalam,
      Punjabi, Urdu, Odia) are spoken and heard as Indian English. */
  lemma SpeechFallsBackForPromptLanguages(code: string)
    requires code in Gemini.LanguageNames && code !in SpeechLangs
    ensures SpeechLang(code) == "en-IN"
    ensures Gemini.LanguageName(code) in {"Kannada", "Malayalam", "Punjabi", "Urdu", "Odia"}
  {
  }

  // ---------------------------------------------------------------------------
  // The message log

  datatype Sender = User | Bot

  /** A chat bubble; a reply read from a part without text is `undefined` (`None`). */
  datatype ChatMessage = ChatMessage(text: Option<string>, sender: Sender)

  /** The bot's reply to a question: online when an API key is set, else the local responder. */
  function Reply(apiKey: string, text: string, greeting: string, ex: Gemini.Exchange): (r: Option<string>)
    ensures apiKey == "" ==> r == Some(LocalResponse(text, greeting))
    ensures apiKey != "" ==> r == ChatReply(ex)
  {
    if apiKey != "" then ChatReply(ex) else Some(LocalResponse(text, greeting))
  }

  class ChatSession {
    var messages: seq<ChatMessage>
    var input: string
    var isThinking: bool
    var apiKey: string
    var language: string
    var greeting: string

    /** The log opens with the translated greeting; no key is set until the environment's is read. */
    constructor(greeting: string, language: string)
      ensures messages == [ChatMessage(Some(greeting), Bot)]
      ensures input == "" && !isThinking && apiKey == ""
      ensures this.language == language && this.greeting == greeting
    {
      messages := [ChatMessage(Some(greeting), Bot)];
      input := "";
      isThinking := false;
      apiKey := "";
      this.language := language;
      this.greeting := greeting;
    }

    /** The mount effect: a non-empty environment key switches the chat online. */
    method LoadEnvironmentKey(envKey: string)
      modifies this
      ensures envKey != "" ==> apiKey == envKey
      ensures envKey == "" ==> apiKey == old(apiKey)
      ensures messages == old(messages) && input == old(input) && isThinking == old(isThinking)
      ensures language == old(language) && greeting == old(greeting)
    {
      if envKey != "" {
        apiKey := envKey;
      }
    }

    method SetInput(text: string)
      modifies this
      ensures input == text
      ensures messages == old(messages) && isThinking == old(isThinking) && apiKey == old(apiKey)
      ensures language == old(language) && greeting == old(greeting)
    {
      input := text;
    }

    /** The first half of `handleSend`: blank input or a pending reply does nothing; otherwise the
        question is logged as typed, the input is cleared and the chat waits. */
    method StartSend() returns (started: bool, question: string)
      modifies this
      ensures started <==> !IsBlank(old(input)) && !old(isThinking)
      ensures !started ==> messages == old(messages) && input == old(input) && isThinking == old(isThinking)
      ensures started ==> question == old(input)
      ensures started ==> messages == old(messages) + [ChatMessage(Some(question), User)]
      ensures started ==> input == "" && isThinking
      ensures apiKey == old(apiKey) && language == old(language) && greeting == old(greeting)
    {
      if IsBlank(input) || isThinking {
        return false, "";
      }
      question := input;
      messages := messages + [ChatMessage(Some(question), User)];
      input := "";
      isThinking := true;
      started := true;
    }

    /** The second half: the reply is logged and the chat stops waiting. */
    method CompleteSend(reply: Option<string>)
      modifies this
      ensures messages == old(messages) + [ChatMessage(reply, Bot)]
      ensures !isThinking
      ensures input == old(input) && apiKey == old(apiKey) && language == old(language) && greeting == old(greeting)
    {
      messages := messages + [ChatMessage(reply, Bot)];
      isThinking := false;
    }

    /** `handleSend`, with `ex` the service's answer to the chat prompt when online. A send appends
        exactly the question and then one reply, clears the input, and ends not waiting. */
    method Send(ex: Gemini.Exchange)
      modifies this
      ensures IsBlank(old(input)) || old(isThinking) ==>
        messages == old(messages) && input == old(input) && isThinking == old(isThinking)
      ensures !IsBlank(old(input)) && !old(isThinking) ==>
        && messages == old(messages) + [ChatMessage(Some(old(input)), User),
                                        ChatMessage(Reply(apiKey, old(input), greeting, ex), Bot)]
        && input == "" && !isThinking
      ensures apiKey == old(apiKey) && language == old(language) && greeting == old(greeting)
    {
      var started, question := StartSend();
      if !started {
        return;
      }
      var reply: Option<string>;
      if apiKey != "" {
        reply := ChatReply(ex);
      } else {
        var local := GenerateLocalResponse(question, greeting);
        reply := Some(local);
      }
      CompleteSend(reply);
    }
  }
}
