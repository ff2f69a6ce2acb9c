/**
 * The router: one request in, one response envelope out, with the shared
 * transcript updated on the wellness and general-chat paths only.
 *
 * `Respond` says on values what one request does; `Session` holds the
 * transcript as mutable state, and its `Handle` and `Reset` are proved to do
 * what `Respond` and the seed say.
 */
module Router {
  import opened Text
  import opened Transcript
  import opened Intent

  /** What a downstream call produced: a value, or the description of the exception it raised. */
  datatype Result<T> = Ok(value: T) | Err(cause: string)

  /** Raw image data returned by the image generation client. */
  type ImageBytes = seq<bv8>

  /**
   * The services the handler calls. The wellness providers are plain functions
   * of the message; the two hosted clients may fail.
   */
  datatype Collaborators = Collaborators(
    getQuote: string -> string,
    suggestBreathing: string -> string,
    textToImage: string -> Result<ImageBytes>,
    complete: seq<Message> -> Result<string>)

  /** The JSON body returned to the page: `{type: "text", bot_response}` or `{type: "image", image_url}`. */
  datatype Envelope = TextReply(botResponse: string) | ImageReply(imageUrl: string)

  /** Where the generated image is stored, and the URL the page loads it from. */
  const ImagePath: string := "static/generated.png"
  const ImageUrl: string := "/" + ImagePath

  /** The warning glyph that starts every error reply. */
  const Warning: string := "\U{26A0}\U{FE0F}"
  const ImageFailPrefix: string := Warning + " Image generation failed ("
  const ChatFailPrefix: string := Warning + " Chat failed ("

  /** The reply text on the general-chat path, from what the chat client produced. */
  function ChatReply(outcome: Result<string>): (r: string)
    ensures outcome.Ok? ==> r == outcome.value
    ensures outcome.Err? ==> StartsWith(r, ChatFailPrefix) && r[|ChatFailPrefix|..] == outcome.cause + ")"
  {
    match outcome
    case Ok(content) => content
    case Err(cause) => ChatFailPrefix + cause + ")"
  }

  /** The reply of a wellness provider, called with the raw message. */
  function Provide(env: Collaborators, provider: Provider, input: string): string {
    match provider
    case GetQuote => env.getQuote(input)
    case SuggestBreathing => env.suggestBreathing(input)
  }

  /** The response and the new transcript of one request. */
  datatype Exchange = Exchange(envelope: Envelope, log: seq<Message>)

  /** One request on a transcript `log`, as a value. */
  function Respond(log: seq<Message>, input: string, env: Collaborators): Exchange {
    match Classify(input)
    case Image(prompt) =>
      (match env.textToImage(prompt)
       case Ok(_) => Exchange(ImageReply(ImageUrl), log)
       case Err(cause) => Exchange(TextReply(ImageFailPrefix + cause + ")"), log))
    case Wellness(_, provider) =>
      var reply := Provide(env, provider, input);
      Exchange(TextReply(reply), log + [Message(User, input), Message(Assistant, reply)])
    case GeneralChat =>
      var context := log + [Message(User, input)];
      var reply := ChatReply(env.complete(context));
      Exchange(TextReply(reply), context + [Message(Assistant, reply)])
  }

  /** The image path never touches the transcript, whether the client succeeds or fails. */
  lemma ImageExchange(log: seq<Message>, input: string, env: Collaborators)
    requires WantsImage(input)
    ensures Respond(log, input, env).log == log
    ensures env.textToImage(input + ImagePromptSuffix).Ok? ==>
      Respond(log, input, env).envelope == ImageReply(ImageUrl)
    ensures env.textToImage(input + ImagePromptSuffix).Err? ==>
      Respond(log, input, env).envelope
      == TextReply(ImageFailPrefix + env.textToImage(input + ImagePromptSuffix).cause + ")")
    ensures Respond(log, input, env).envelope.TextReply? ==>
      StartsWith(Respond(log, input, env).envelope.botResponse, ImageFailPrefix)
  {
    var prompt := input + ImagePromptSuffix;
    assert Classify(input) == Image(prompt);
    if env.textToImage(prompt).Err? {
      var reply := ImageFailPrefix + env.textToImage(prompt).cause + ")";
      assert reply[..|ImageFailPrefix|] == ImageFailPrefix;
    }
  }

  /** The page loads a generated image from one fixed URL. */
  lemma ImageUrlIsFixed()
    ensures ImageUrl == "/static/generated.png"
  {
  }

  /**
   * A wellness exchange adds exactly the user's raw message and the provider's
   * reply, verbatim, and that reply is what the page gets back.
   */
  lemma WellnessExchange(log: seq<Message>, input: string, env: Collaborators)
    requires Classify(input).Wellness?
    ensures var reply := Provide(env, Classify(input).provider, input);
      && Respond(log, input, env).log == log + [Message(User, input), Message(Assistant, reply)]
      && Respond(log, input, env).envelope == TextReply(reply)
      && |Respond(log, input, env).log| == |log| + 2
  {
  }

  /**
   * A general-chat exchange adds the user's message and then the reply, on
   * success and on failure; the chat client saw the whole transcript ending
   * with the new user message; a failed call leaves a warning reply.
   */
  lemma GeneralChatExchange(log: seq<Message>, input: string, env: Collaborators)
    requires Classify(input).GeneralChat?
    ensures var x := Respond(log, input, env);
      && |x.log| == |log| + 2
      && x.log[..|log|] == log
      && x.log[|log|] == Message(User, input)
      && x.log[|log| + 1].role == Assistant
      && x.log[|log| + 1].content == ChatReply(env.complete(x.log[..|log| + 1]))
      && x.envelope == TextReply(x.log[|log| + 1].content)
    ensures env.complete(log + [Message(User, input)]).Err? ==>
      StartsWith(Respond(log, input, env).log[|log| + 1].content, ChatFailPrefix)
  {
    var x := Respond(log, input, env);
    assert x.log[..|log| + 1] == log + [Message(User, input)];
  }

  /**
   * Every request keeps the transcript's shape (system message first, then
   * user/assistant pairs); it only ever appends, by zero or two messages.
   */
  lemma RespondKeepsAlternating(log: seq<Message>, input: string, env: Collaborators)
    requires Alternating(log)
    ensures var x := Respond(log, input, env);
      && Alternating(x.log)
      && x.log[0] == SystemPrompt
      && x.log[..|log|] == log
      && |x.log| == |log| + (if WantsImage(input) then 0 else 2)
  {
    var x := Respond(log, input, env);
    match Classify(input)
    case Image(_) =>
    case Wellness(_, provider) =>
      AppendPairAlternating(log, input, Provide(env, provider, input));
    case GeneralChat =>
      var context := log + [Message(User, input)];
      assert x.log == log + [Message(User, input), Message(Assistant, ChatReply(env.complete(context)))];
      AppendPairAlternating(log, input, ChatReply(env.complete(context)));
  }

  /** What the page shows after a request: what it showed before, plus the new pair if any. */
  lemma VisibleAfterRespond(log: seq<Message>, input: string, env: Collaborators)
    ensures var x := Respond(log, input, env);
      && |log| <= |x.log|
      && Visible(x.log) == Visible(log) + x.log[|log|..]
  {
    var x := Respond(log, input, env);
    var intent := Classify(input);
    if !intent.Image? {
      var reply := if intent.Wellness? then Provide(env, intent.provider, input)
                   else ChatReply(env.complete(log + [Message(User, input)]));
      assert x.log == log + [Message(User, input), Message(Assistant, reply)];
      assert x.log[|log|..] == [Message(User, input), Message(Assistant, reply)];
      VisibleAfterPair(log, input, reply);
    }
  }

  /**
   * The keyword loop of the handler: walks the table in order and stops at the
   * first row whose keyword occurs in the lower-cased message.
   */
  method ScanKeywords(text: string) returns (found: Option<nat>)
    ensures found == FirstMatch(McpKeywords, text)
  {
    var i := 0;
    while i < |McpKeywords|
      invariant 0 <= i <= |McpKeywords|
      invariant forall j :: 0 <= j < i ==> !Contains(text, McpKeywords[j].keyword)
    {
      if Contains(text, McpKeywords[i].keyword) {
        return Some(i);
      }
      i := i + 1;
    }
    return None;
  }

  /**
   * The routing steps of the handler: the image check on the lower-cased
   * message, then the keyword loop, then the general-chat fallback.
   */
  method Route(input: string) returns (intent: Intent)
    ensures intent == Classify(input)
  {
    var text := Lower(input);
    if AnyOccurs(ImageWords, text) {
      return Image(input + ImagePromptSuffix);
    }
    var found := ScanKeywords(text);
    match found
    case Some(k) =>
      return Wellness(McpKeywords[k].keyword, McpKeywords[k].provider);
    case None =>
      return GeneralChat;
  }

  /** The shared transcript of the running server. */
  class Session {
    var log: seq<Message>

    ghost predicate Valid()
      reads this
    {
      Alternating(log)
    }

    /** A new session holds only the system message. */
    constructor ()
      ensures Valid() && log == Seed
    {
      log := Seed;
    }

    /** Handles one posted message: routes it, calls one service, updates the transcript. */
    method Handle(input: string, env: Collaborators) returns (e: Envelope)
      requires Valid()
      modifies this
      ensures Valid()
      ensures e == Respond(old(log), input, env).envelope
      ensures log == Respond(old(log), input, env).log
      ensures |log| == |old(log)| + (if WantsImage(input) then 0 else 2)
    {
      RespondKeepsAlternating(log, input, env);
      var intent := Route(input);
      match intent
      case Image(prompt) =>
        var outcome := env.textToImage(prompt);
        if outcome.Ok? {
          return ImageReply("/" + ImagePath);
        } else {
          return TextReply(ImageFailPrefix + outcome.cause + ")");
        }
      case Wellness(_, provider) =>
        var reply := Provide(env, provider, input);
        log := log + [Message(User, input)];
        log := log + [Message(Assistant, reply)];
        return TextReply(reply);
      case GeneralChat =>
        log := log + [Message(User, input)];
        var reply := ChatReply(env.complete(log));
        log := log + [Message(Assistant, reply)];
        return TextReply(reply);
    }

    /** Clears the conversation: the transcript goes back to the system message alone. */
    method Reset() returns (status: string)
      modifies this
      ensures Valid()
      ensures log == Seed && |log| == 1 && log[0] == SystemPrompt
      ensures status == "ok"
    {
      log := Seed;
      status := "ok";
    }

    /** The messages handed to the chat page: the transcript without its system message. */
    method VisibleLog() returns (r: seq<Message>)
      requires Valid()
      ensures r == Visible(log)
      ensures r == log[1..]
    {
      VisibleOfAlternating(log);
      r := log[1..];
    }
  }
}
