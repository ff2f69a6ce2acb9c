/**
 * Intent classification: which of the three handlers a message goes to.
 * The image check comes first; otherwise the first keyword of the wellness
 * table (in table order) found in the lower-cased message picks a provider;
 * otherwise the message goes to general chat.
 */
module Intent {
  import opened Text

  datatype Option<T> = None | Some(value: T)

  /** The two wellness content providers of the keyword table. */
  datatype Provider = GetQuote | SuggestBreathing

  /** One row of the keyword table. */
  datatype Entry = Entry(keyword: string, provider: Provider)

  /** The words whose presence (in the lower-cased message) asks for an image. */
  const ImageWords: seq<string> := ["draw", "picture", "image", "generate", "show me"]

  /** The keyword table, in its declaration (and iteration) order. */
  const McpKeywords: seq<Entry> := [
    Entry("quote", GetQuote),
    Entry("inspire", GetQuote),
    Entry("breathing", SuggestBreathing),
    Entry("relax", SuggestBreathing)
  ]

  /** What the image prompt appends to the user's own text. */
  const ImagePromptSuffix: string := ". Make it calming, peaceful, and mental-health friendly."

  datatype Intent =
    | Image(prompt: string)
    | Wellness(keyword: string, provider: Provider)
    | GeneralChat

  /** `any(word in text for word in words)`. */
  function AnyOccurs(words: seq<string>, text: string): (r: bool)
    ensures r <==> exists k :: 0 <= k < |words| && Contains(text, words[k])
  {
    if words == [] then false
    else
      var rest := AnyOccurs(words[1..], text);
      assert forall k :: 1 <= k < |words| ==> words[k] == words[1..][k - 1];
      Contains(text, words[0]) || rest
  }

  /** The message asks for an image. */
  predicate WantsImage(input: string) {
    AnyOccurs(ImageWords, Lower(input))
  }

  /** The position of the first row of `table` whose keyword occurs in `text`, if any. */
  function FirstMatch(table: seq<Entry>, text: string): (r: Option<nat>)
    ensures r.Some? ==> r.value < |table| && Contains(text, table[r.value].keyword)
    ensures r.Some? ==> forall j :: 0 <= j < r.value ==> !Contains(text, table[j].keyword)
    ensures r.None? <==> forall j :: 0 <= j < |table| ==> !Contains(text, table[j].keyword)
  {
    if table == [] then None
    else if Contains(text, table[0].keyword) then Some(0)
    else
      match FirstMatch(table[1..], text)
      case None =>
        assert forall j :: 1 <= j < |table| ==> table[j] == table[1..][j - 1];
        None
      case Some(k) =>
        assert forall j :: 1 <= j <= k + 1 ==> table[j] == table[1..][j - 1];
        Some(k + 1)
  }

  /** Routes one message. */
  function Classify(input: string): (r: Intent)
    ensures r.Image? <==> exists k :: 0 <= k < |ImageWords| && Contains(Lower(input), ImageWords[k])
    ensures r.Image? ==> r.prompt == input + ImagePromptSuffix
    ensures r.Wellness? <==>
      !WantsImage(input) && exists k :: 0 <= k < |McpKeywords| && Contains(Lower(input), McpKeywords[k].keyword)
    ensures r.Wellness? ==>
      exists k ::
        && 0 <= k < |McpKeywords|
        && Contains(Lower(input), McpKeywords[k].keyword)
        && (forall j :: 0 <= j < k ==> !Contains(Lower(input), McpKeywords[j].keyword))
        && McpKeywords[k] == Entry(r.keyword, r.provider)
    ensures r.GeneralChat? <==>
      !WantsImage(input) && forall k :: 0 <= k < |McpKeywords| ==> !Contains(Lower(input), McpKeywords[k].keyword)
  {
    if WantsImage(input) then Image(input + ImagePromptSuffix)
    else
      match FirstMatch(McpKeywords, Lower(input))
      case Some(k) => Wellness(McpKeywords[k].keyword, McpKeywords[k].provider)
      case None => GeneralChat
  }

  /** An image word wins even when wellness keywords occur too. */
  lemma ImageHasPriority(input: string, k: nat)
    requires k < |ImageWords| && Contains(Lower(input), ImageWords[k])
    ensures Classify(input) == Image(input + ImagePromptSuffix)
  {
  }

  /**
   * Without an image word, the row chosen is the first row of the TABLE whose
   * keyword occurs, whatever order the keywords appear in within the message.
   */
  lemma {:induction false} FirstKeywordWins(input: string, k: nat)
    requires !WantsImage(input)
    requires k < |McpKeywords| && Contains(Lower(input), McpKeywords[k].keyword)
    requires forall j :: 0 <= j < k ==> !Contains(Lower(input), McpKeywords[j].keyword)
    ensures Classify(input) == Wellness(McpKeywords[k].keyword, McpKeywords[k].provider)
  {
    var m := FirstMatch(McpKeywords, Lower(input));
    assert m == Some(k);
  }

  /** The quote provider is chosen exactly when "quote" or "inspire" occurs (and no image word). */
  lemma QuoteChoice(input: string)
    ensures Classify(input).Wellness? && Classify(input).provider == GetQuote
      <==> !WantsImage(input) && (Contains(Lower(input), "quote") || Contains(Lower(input), "inspire"))
  {
    var r := Classify(input);
    if r.Wellness? && r.provider == GetQuote {
      var k :| 0 <= k < |McpKeywords| && Contains(Lower(input), McpKeywords[k].keyword)
        && McpKeywords[k] == Entry(r.keyword, r.provider);
      assert k < 2;
    }
    if !WantsImage(input) && Contains(Lower(input), "quote") {
      FirstKeywordWins(input, 0);
    } else if !WantsImage(input) && Contains(Lower(input), "inspire") {
      FirstKeywordWins(input, 1);
    }
  }

  /**
   * The breathing provider is chosen exactly when "breathing" or "relax" occurs,
   * neither "quote" nor "inspire" does, and there is no image word.
   */
  lemma BreathingChoice(input: string)
    ensures Classify(input).Wellness? && Classify(input).provider == SuggestBreathing
      <==> && !WantsImage(input)
           && !Contains(Lower(input), "quote") && !Contains(Lower(input), "inspire")
           && (Contains(Lower(input), "breathing") || Contains(Lower(input), "relax"))
  {
    var r := Classify(input);
    var text := Lower(input);
    if r.Wellness? && r.provider == SuggestBreathing {
      var k :| 0 <= k < |McpKeywords| && Contains(text, McpKeywords[k].keyword)
        && (forall j :: 0 <= j < k ==> !Contains(text, McpKeywords[j].keyword))
        && McpKeywords[k] == Entry(r.keyword, r.provider);
      assert k >= 2;
      assert !Contains(text, McpKeywords[0].keyword);
      assert !Contains(text, McpKeywords[1].keyword);
    }
    if !WantsImage(input) && !Contains(text, "quote") && !Contains(text, "inspire") {
      if Contains(text, "breathing") {
        FirstKeywordWins(input, 2);
      } else if Contains(text, "relax") {
        FirstKeywordWins(input, 3);
      }
    }
  }

  /** Messages that agree up to letter case take the same route. */
  lemma CaseInsensitiveRouting(a: string, b: string)
    requires Lower(a) == Lower(b)
    ensures Classify(a).Image? == Classify(b).Image?
    ensures !Classify(a).Image? ==> Classify(a) == Classify(b)
  {
  }
}
