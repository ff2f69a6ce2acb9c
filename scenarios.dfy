/**
 * Concrete requests replayed against the model: which route a few
 * representative messages take and what a fresh transcript looks like after
 * them. Each message is a parameter fixed by its requires clause. The facts
 * about a message's letters are proved in small lemmas of their own and then
 * used through general route lemmas that never see the literal, which keeps
 * every proof small.
 */
module Scenarios {
  import opened Text
  import opened Transcript
  import opened Intent
  import opened Router

  /** A message with no upper-case letter is its own lower-case form. */
  lemma LowerOfLowercase(s: string)
    requires forall i :: 0 <= i < |s| ==> !('A' <= s[i] <= 'Z')
    ensures Lower(s) == s
  {
  }

  /** A message whose lower-case form lacks d, p, i, g and s holds none of the five image words. */
  lemma NoImageWordLetters(s: string)
    requires 'd' !in Lower(s)
    requires 'p' !in Lower(s)
    requires 'i' !in Lower(s)
    requires 'g' !in Lower(s)
    requires 's' !in Lower(s)
    ensures !WantsImage(s)
  {
    var text := Lower(s);
    AbsentCharacter(text, "draw", 'd');
    AbsentCharacter(text, "picture", 'p');
    AbsentCharacter(text, "image", 'i');
    AbsentCharacter(text, "generate", 'g');
    AbsentCharacter(text, "show me", 's');
  }

  /** A message whose lower-case form lacks q, i, b and x holds none of the four keywords. */
  lemma NoKeywordLetters(s: string)
    requires 'q' !in Lower(s)
    requires 'i' !in Lower(s)
    requires 'b' !in Lower(s)
    requires 'x' !in Lower(s)
    ensures forall k :: 0 <= k < |McpKeywords| ==> !Contains(Lower(s), McpKeywords[k].keyword)
  {
    var text := Lower(s);
    AbsentCharacter(text, "quote", 'q');
    AbsentCharacter(text, "inspire", 'i');
    AbsentCharacter(text, "breathing", 'b');
    AbsentCharacter(text, "relax", 'x');
  }

  /** A message whose lower-case form lacks q, i and b holds none of the first three keywords. */
  lemma NoEarlierKeyword(s: string)
    requires 'q' !in Lower(s)
    requires 'i' !in Lower(s)
    requires 'b' !in Lower(s)
    ensures forall j :: 0 <= j < 3 ==> !Contains(Lower(s), McpKeywords[j].keyword)
  {
    var text := Lower(s);
    AbsentCharacter(text, "quote", 'q');
    AbsentCharacter(text, "inspire", 'i');
    AbsentCharacter(text, "breathing", 'b');
  }

  /** A lower-case message with no image letter that holds "quote" goes to the quote provider. */
  lemma QuoteRoute(s: string, at: nat)
    requires Lower(s) == s
    requires 'd' !in s
    requires 'p' !in s
    requires 'i' !in s
    requires 'g' !in s
    requires 's' !in s
    requires OccursAt(s, "quote", at)
    ensures Classify(s) == Wellness("quote", GetQuote)
  {
    NoImageWordLetters(s);
    FirstKeywordWins(s, 0);
  }

  /**
   * A lower-case message with no image letter and none of the three earlier
   * keywords that holds "relax" goes to the breathing provider.
   */
  lemma RelaxRoute(s: string, at: nat)
    requires Lower(s) == s
    requires 'd' !in s
    requires 'p' !in s
    requires 'i' !in s
    requires 'g' !in s
    requires 's' !in s
    requires 'q' !in s
    requires 'b' !in s
    requires OccursAt(s, "relax", at)
    ensures Classify(s) == Wellness("relax", SuggestBreathing)
  {
    NoImageWordLetters(s);
    NoEarlierKeyword(s);
    FirstKeywordWins(s, 3);
  }

  /** A lower-case message lacking every image letter and every keyword letter goes to general chat. */
  lemma ChatRoute(s: string)
    requires Lower(s) == s
    requires 'd' !in s
    requires 'p' !in s
    requires 'i' !in s
    requires 'g' !in s
    requires 's' !in s
    requires 'q' !in s
    requires 'b' !in s
    requires 'x' !in s
    ensures Classify(s) == GeneralChat
  {
    NoImageWordLetters(s);
    NoKeywordLetters(s);
  }

  /** "draw a sunset" asks for an image; a failed call leaves the transcript as it was. */
  lemma DrawASunset(s: string, log: seq<Message>, env: Collaborators, cause: string)
    requires s == "draw a sunset"
    requires env.textToImage(s + ImagePromptSuffix) == Err(cause)
    ensures Classify(s) == Image(s + ImagePromptSuffix)
    ensures Respond(log, s, env) == Exchange(TextReply(ImageFailPrefix + cause + ")"), log)
  {
    LowerOfLowercase(s);
    assert s[0..4] == "draw";
    assert OccursAt(s, "draw", 0);
    ImageHasPriority(s, 0);
  }

  /** Upper case does not hide an image word, and the image word beats the keyword "quote". */
  lemma ShoutedDrawAQuote(s: string)
    requires s == "DRAW a quote"
    ensures Classify(s) == Image(s + ImagePromptSuffix)
  {
    assert Lower(s)[0..4] == "draw";
    assert OccursAt(Lower(s), "draw", 0);
    ImageHasPriority(s, 0);
  }

  /**
   * A lower-cased text lacking d, p, n and s, and in which "im" does not occur,
   * holds none of the five image words: "image" contains "im".
   */
  lemma NoImageWordWithoutIm(text: string)
    requires 'd' !in text
    requires 'p' !in text
    requires 'n' !in text
    requires 's' !in text
    requires !Contains(text, "im")
    ensures !AnyOccurs(ImageWords, text)
  {
    AbsentCharacter(text, "draw", 'd');
    AbsentCharacter(text, "picture", 'p');
    assert OccursAt("image", "im", 0);
    AbsentPiece(text, "image", "im", 0);
    AbsentCharacter(text, "generate", 'n');
    AbsentCharacter(text, "show me", 's');
  }

  lemma GiveMeAQuoteLower(s: string)
    requires s == "give me a quote"
    ensures Lower(s) == s
  {
    LowerOfLowercase(s);
  }

  lemma GiveMeAQuoteLetters(s: string)
    requires s == "give me a quote"
    ensures 'd' !in s
    ensures 'p' !in s
    ensures 'n' !in s
    ensures 's' !in s
    ensures OccursAt(s, "quote", 10)
  {
    assert s[10..15] == "quote";
  }

  /** The only "i" of "give me a quote" is followed by "v", so "im" does not occur. */
  lemma GiveMeAQuoteNoIm(s: string)
    requires s == "give me a quote"
    ensures !Contains(s, "im")
  {
    assert s[0] == 'g' && s[2] == 'v';
    assert !OccursAt(s, "im", 0);
    assert !OccursAt(s, "im", 1);
    assert 'i' !in s[2..];
    AbsentCharacter(s[2..], "im", 'i');
    AbsentFrom(s, "im", 2);
  }

  /**
   * "give me a quote" goes to the quote provider, although it holds the letters
   * of "image" and "generate"; on a fresh transcript it leaves three messages.
   */
  lemma GiveMeAQuote(s: string, env: Collaborators)
    requires s == "give me a quote"
    ensures Classify(s) == Wellness("quote", GetQuote)
    ensures Respond(Seed, s, env) == Exchange(
      TextReply(env.getQuote(s)),
      Seed + [Message(User, s), Message(Assistant, env.getQuote(s))])
  {
    GiveMeAQuoteLower(s);
    GiveMeAQuoteLetters(s);
    GiveMeAQuoteNoIm(s);
    NoImageWordWithoutIm(Lower(s));
    FirstKeywordWins(s, 0);
    WellnessExchange(Seed, s, env);
  }

  lemma RelaxThenAQuoteLower(s: string)
    requires s == "relax, then a quote"
    ensures Lower(s) == s
  {
    LowerOfLowercase(s);
  }

  lemma RelaxThenAQuoteLetters(s: string)
    requires s == "relax, then a quote"
    ensures 'd' !in s
    ensures 'p' !in s
    ensures 'i' !in s
    ensures 'g' !in s
    ensures 's' !in s
    ensures OccursAt(s, "relax", 0)
    ensures OccursAt(s, "quote", 14)
  {
    assert s[0..5] == "relax";
    assert s[14..19] == "quote";
  }

  /** Table order, not message order: "relax" comes first in the message, but "quote" comes first in the table. */
  lemma RelaxThenAQuote(s: string)
    requires s == "relax, then a quote"
    ensures Contains(Lower(s), "relax")
    ensures Classify(s) == Wellness("quote", GetQuote)
  {
    RelaxThenAQuoteLower(s);
    RelaxThenAQuoteLetters(s);
    QuoteRoute(s, 14);
  }

  lemma RelaxNowLower(s: string)
    requires s == "relax now"
    ensures Lower(s) == s
  {
    LowerOfLowercase(s);
  }

  lemma RelaxNowLetters(s: string)
    requires s == "relax now"
    ensures 'd' !in s
    ensures 'p' !in s
    ensures 'i' !in s
    ensures 'g' !in s
    ensures 's' !in s
    ensures 'q' !in s
    ensures 'b' !in s
    ensures OccursAt(s, "relax", 0)
  {
    assert s[0..5] == "relax";
  }

  /** "relax" alone goes to the breathing provider, and the transcript grows by the pair. */
  lemma RelaxNow(s: string, log: seq<Message>, env: Collaborators)
    requires s == "relax now"
    ensures Classify(s) == Wellness("relax", SuggestBreathing)
    ensures Respond(log, s, env) == Exchange(
      TextReply(env.suggestBreathing(s)),
      log + [Message(User, s), Message(Assistant, env.suggestBreathing(s))])
  {
    RelaxNowLower(s);
    RelaxNowLetters(s);
    RelaxRoute(s, 0);
    WellnessExchange(log, s, env);
  }

  lemma HelloLower(s: string)
    requires s == "hello, how are you"
    ensures Lower(s) == s
  {
    LowerOfLowercase(s);
  }

  lemma HelloImageLetters(s: string)
    requires s == "hello, how are you"
    ensures 'd' !in s
    ensures 'p' !in s
    ensures 'i' !in s
    ensures 'g' !in s
    ensures 's' !in s
  {
  }

  lemma HelloKeywordLetters(s: string)
    requires s == "hello, how are you"
    ensures 'q' !in s
    ensures 'b' !in s
    ensures 'x' !in s
  {
  }

  /**
   * "hello, how are you" on a fresh transcript is general chat: the chat client
   * gets exactly the system message and the user's message, and the transcript
   * ends with three messages.
   */
  lemma HelloHowAreYou(s: string, env: Collaborators)
    requires s == "hello, how are you"
    ensures Classify(s) == GeneralChat
    ensures var context := Seed + [Message(User, s)];
      Respond(Seed, s, env) == Exchange(
        TextReply(ChatReply(env.complete(context))),
        context + [Message(Assistant, ChatReply(env.complete(context)))])
  {
    HelloLower(s);
    HelloImageLetters(s);
    HelloKeywordLetters(s);
    ChatRoute(s);
  }

  /** An empty message is not rejected: it goes to general chat. */
  lemma EmptyMessage(s: string)
    requires s == ""
    ensures Classify(s) == GeneralChat
  {
  }
}
