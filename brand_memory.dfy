/**
 * The per-organisation brand voice kept in Mem0 (`BrandMemoryService`): the
 * `BrandVoice` record, the lazily created client, reading a voice back from
 * search results, saving one as a list of messages, and the prompt text built
 * from a voice. The Mem0 client itself is replaced by replies passed in: whether
 * creating it succeeds, what a search returns, and whether each `add` succeeds.
 */
module BrandMemory {
  import opened Wrappers
  import opened Strings
  import opened TextPatterns

  datatype BrandVoice = BrandVoice(
    orgId: string,
    companyName: Option<string>,
    tagline: Option<string>,
    brandColors: seq<string>,
    primaryColor: Option<string>,
    toneKeywords: seq<string>,
    writingStyle: Option<string>,
    targetAudience: Option<string>,
    keyMessages: seq<string>,
    avoidPhrases: seq<string>,
    preferredPhrases: seq<string>,
    customGuidelines: Option<string>)

  /** `BrandVoice(org_id=org)`: every other field at its default. */
  function EmptyVoice(orgId: string): (v: BrandVoice)
    ensures v.orgId == orgId
  {
    BrandVoice(orgId, None, None, [], None, [], None, None, [], [], [], None)
  }

  /** `_get_user_id`: the Mem0 user under which an organisation's brand is stored. */
  function UserId(orgId: string): (r: string)
    ensures StartsWith(r, "brand_") && r[6..] == orgId
  {
    "brand_" + orgId
  }

  /** Different organisations never share a Mem0 user. */
  lemma UserIdInjective(a: string, b: string)
    requires UserId(a) == UserId(b)
    ensures a == b
  {
    assert a == UserId(a)[6..];
  }

  /** `_get_default_brand_voice`. */
  function DefaultBrandVoice(orgId: string): (v: BrandVoice)
    ensures v.orgId == orgId && |v.toneKeywords| == 3
    ensures Truthy(v.writingStyle) && Truthy(v.customGuidelines)
    ensures v.brandColors == [] && v.primaryColor.None? && v.companyName.None?
  {
    EmptyVoice(orgId).(
      toneKeywords := ["professional", "clear", "value-focused"],
      writingStyle := Some("direct and conversational"),
      customGuidelines := Some("Focus on value proposition and clear calls to action."))
  }

  // ---------------------------------------------------------------- _parse_brand_memories

  const ToneVocabulary: seq<string> :=
    ["professional", "friendly", "innovative", "casual", "formal", "technical", "playful", "authoritative"]

  /** A memory's text, lower-cased; a result without a "memory" entry reads as "". */
  function MemoryContent(m: Option<string>): string
  {
    Lower(m.GetOr(""))
  }

  /** The hex colours a memory contributes: only memories that mention "color". */
  function MemoryColors(content: string): seq<string>
  {
    if Contains(content, "color") then FindAll(HexColor, content, 0) else []
  }

  /** The writing style a memory names, if it mentions "style": formal before casual before technical. */
  function MemoryStyle(content: string): Option<string>
  {
    if !Contains(content, "style") then None
    else if Contains(content, "formal") then Some("formal")
    else if Contains(content, "casual") then Some("casual")
    else if Contains(content, "technical") then Some("technical")
    else None
  }

  /** The colour part of one iteration: append the colours, and set the primary colour if unset. */
  function ColorStep(v: BrandVoice, content: string): BrandVoice
  {
    var colors := MemoryColors(content);
    v.(brandColors := v.brandColors + colors,
       primaryColor := if colors != [] && !Truthy(v.primaryColor) then Some(colors[0]) else v.primaryColor)
  }

  /** The tone part: append the vocabulary words that occur, if the memory mentions "tone". */
  function ToneStep(v: BrandVoice, content: string): BrandVoice
  {
    if Contains(content, "tone") then v.(toneKeywords := v.toneKeywords + WordsFound(content, ToneVocabulary)) else v
  }

  /** The style part: a named style overwrites the earlier one. */
  function StyleStep(v: BrandVoice, content: string): BrandVoice
  {
    if MemoryStyle(content).Some? then v.(writingStyle := MemoryStyle(content)) else v
  }

  /** The audience part: the whole memory becomes the audience. */
  function AudienceStep(v: BrandVoice, content: string): BrandVoice
  {
    if Contains(content, "audience") then v.(targetAudience := Some(content)) else v
  }

  /** One iteration of the parsing loop over memories. */
  function ParseStep(v: BrandVoice, m: Option<string>): BrandVoice
  {
    var content := MemoryContent(m);
    AudienceStep(StyleStep(ToneStep(ColorStep(v, content), content), content), content)
  }

  /** The voice read from `memories`, in order. */
  function ParseMemories(orgId: string, memories: seq<Option<string>>): BrandVoice
  {
    if |memories| == 0 then EmptyVoice(orgId)
    else ParseStep(ParseMemories(orgId, memories[..|memories| - 1]), memories[|memories| - 1])
  }

  /** `_parse_brand_memories`: the loop over memories, each updating the voice in place. */
  method ParseBrandMemories(orgId: string, memories: seq<Option<string>>) returns (v: BrandVoice)
    ensures v == ParseMemories(orgId, memories)
  {
    v := EmptyVoice(orgId);
    var i := 0;
    while i < |memories|
      invariant 0 <= i <= |memories|
      invariant v == ParseMemories(orgId, memories[..i])
    {
      assert memories[..i + 1][..i] == memories[..i];
      var content := Lower(memories[i].GetOr(""));
      v := ReadColors(v, content);
      v := ReadTone(v, content);
      v := ReadStyle(v, content);
      if Contains(content, "audience") {
        v := v.(targetAudience := Some(content));
      }
      i := i + 1;
    }
    assert memories[..|memories|] == memories;
  }

  method ReadColors(v0: BrandVoice, content: string) returns (v: BrandVoice)
    ensures v == ColorStep(v0, content)
  {
    v := v0;
    if Contains(content, "color") {
      var colors := FindAll(HexColor, content, 0);
      v := v.(brandColors := v.brandColors + colors);
      if colors != [] && !Truthy(v.primaryColor) {
        v := v.(primaryColor := Some(colors[0]));
      }
    }
  }

  method ReadTone(v0: BrandVoice, content: string) returns (v: BrandVoice)
    ensures v == ToneStep(v0, content)
  {
    v := v0;
    if Contains(content, "tone") {
      var k := 0;
      while k < |ToneVocabulary|
        invariant 0 <= k <= |ToneVocabulary|
        invariant v == v0.(toneKeywords := v0.toneKeywords + WordsFound(content, ToneVocabulary[..k]))
      {
        assert ToneVocabulary[..k + 1][..k] == ToneVocabulary[..k];
        if Contains(content, ToneVocabulary[k]) {
          v := v.(toneKeywords := v.toneKeywords + [ToneVocabulary[k]]);
        }
        k := k + 1;
      }
      assert ToneVocabulary[..k] == ToneVocabulary;
    }
  }

  method ReadStyle(v0: BrandVoice, content: string) returns (v: BrandVoice)
    ensures v == StyleStep(v0, content)
  {
    v := v0;
    if Contains(content, "style") {
      if Contains(content, "formal") {
        v := v.(writingStyle := Some("formal"));
      } else if Contains(content, "casual") {
        v := v.(writingStyle := Some("casual"));
      } else if Contains(content, "technical") {
        v := v.(writingStyle := Some("technical"));
      }
    }
  }

  /** Every colour read back is '#' and six hexadecimal digits. */
  lemma {:induction false} ParsedColorsAreHex(orgId: string, memories: seq<Option<string>>)
    ensures forall k :: 0 <= k < |ParseMemories(orgId, memories).brandColors| ==>
              var c := ParseMemories(orgId, memories).brandColors[k];
              |c| == 7 && c[0] == '#' && forall j :: 1 <= j < 7 ==> IsHexDigit(c[j])
  {
    if |memories| > 0 {
      var init := memories[..|memories| - 1];
      ParsedColorsAreHex(orgId, init);
      var content := MemoryContent(memories[|memories| - 1]);
      HexColorShape(content, 0);
    }
  }

  /** The primary colour is the first colour found, and is set exactly when some colour is. */
  lemma {:induction false} ParsedPrimaryIsFirstColor(orgId: string, memories: seq<Option<string>>)
    ensures var v := ParseMemories(orgId, memories);
            v.primaryColor == if v.brandColors == [] then None else Some(v.brandColors[0])
  {
    if |memories| > 0 {
      var init := memories[..|memories| - 1];
      ParsedPrimaryIsFirstColor(orgId, init);
      ParsedColorsAreHex(orgId, init);
      var content := MemoryContent(memories[|memories| - 1]);
      HexColorShape(content, 0);
    }
  }

  /** Tone keywords come only from the vocabulary. */
  lemma {:induction false} ParsedToneInVocabulary(orgId: string, memories: seq<Option<string>>)
    ensures forall t :: t in ParseMemories(orgId, memories).toneKeywords ==> t in ToneVocabulary
  {
    if |memories| > 0 {
      ParsedToneInVocabulary(orgId, memories[..|memories| - 1]);
      WordsFoundSpec(MemoryContent(memories[|memories| - 1]), ToneVocabulary);
    }
  }

  /** The writing style is one of the three recognised styles, or unset. */
  lemma {:induction false} ParsedStyleKnown(orgId: string, memories: seq<Option<string>>)
    ensures var s := ParseMemories(orgId, memories).writingStyle;
            s.None? || s.value == "formal" || s.value == "casual" || s.value == "technical"
  {
    if |memories| > 0 {
      ParsedStyleKnown(orgId, memories[..|memories| - 1]);
    }
  }

  predicate MentionsAudience(m: Option<string>)
  {
    Contains(MemoryContent(m), "audience")
  }

  lemma AudienceOfStep(v: BrandVoice, m: Option<string>)
    ensures ParseStep(v, m).targetAudience == if MentionsAudience(m) then Some(MemoryContent(m)) else v.targetAudience
  {
  }

  /** The position of the last memory that mentions "audience", if any does. */
  function LastAudienceMention(memories: seq<Option<string>>): (r: Option<nat>)
    ensures r.None? <==> forall k :: 0 <= k < |memories| ==> !MentionsAudience(memories[k])
    ensures r.Some? ==> r.value < |memories| && MentionsAudience(memories[r.value])
                        && forall j :: r.value < j < |memories| ==> !MentionsAudience(memories[j])
  {
    if |memories| == 0 then None
    else if MentionsAudience(memories[|memories| - 1]) then Some(|memories| - 1)
    else
      var init := memories[..|memories| - 1];
      assert forall k :: 0 <= k < |init| ==> init[k] == memories[k];
      LastAudienceMention(init)
  }

  /** The target audience is the whole lower-cased text of the last memory that mentions "audience", and unset when none does. */
  lemma {:induction false} ParsedAudienceIsLastMatch(orgId: string, memories: seq<Option<string>>)
    ensures var k := LastAudienceMention(memories);
            ParseMemories(orgId, memories).targetAudience == if k.None? then None else Some(MemoryContent(memories[k.value]))
  {
    if |memories| > 0 {
      var n := |memories| - 1;
      var init := memories[..n];
      ParsedAudienceIsLastMatch(orgId, init);
      AudienceOfStep(ParseMemories(orgId, init), memories[n]);
      var k := LastAudienceMention(init);
      if !MentionsAudience(memories[n]) && k.Some? {
        assert memories[k.value] == init[k.value];
      }
    }
  }

  /** Parsing never fills the name, tagline, messages, phrase lists or custom guidelines. */
  lemma {:induction false} ParseLeavesOtherFields(orgId: string, memories: seq<Option<string>>)
    ensures var v := ParseMemories(orgId, memories);
            v.orgId == orgId && v.companyName.None? && v.tagline.None? && v.keyMessages == []
            && v.avoidPhrases == [] && v.preferredPhrases == [] && v.customGuidelines.None?
  {
    if |memories| > 0 {
      ParseLeavesOtherFields(orgId, memories[..|memories| - 1]);
    }
  }

  // ---------------------------------------------------------------- _build_brand_messages

  function KeyMessageLines(msgs: seq<string>): (r: seq<string>)
    ensures |r| == |msgs|
    ensures forall i :: 0 <= i < |msgs| ==> r[i] == "Key message: " + msgs[i]
  {
    seq(|msgs|, i requires 0 <= i < |msgs| => "Key message: " + msgs[i])
  }

  /** The messages saved for a voice, in the fixed field order. */
  function BrandMessages(v: BrandVoice): seq<string>
  {
    TextLine("Our company name is ", v.companyName)
    + TextLine("Our tagline is: ", v.tagline)
    + ListLine("Brand colors: ", v.brandColors, ", ")
    + ListLine("Our brand tone is ", v.toneKeywords, ", ")
    + (if Truthy(v.writingStyle) then ["We write in a " + v.writingStyle.value + " style"] else [])
    + TextLine("Our target audience is ", v.targetAudience)
    + KeyMessageLines(v.keyMessages)
    + ListLine("Avoid using: ", v.avoidPhrases, ", ")
    + ListLine("Prefer using: ", v.preferredPhrases, ", ")
    + TextLine("Brand guideline: ", v.customGuidelines)
  }

  function Count(b: bool): nat
  {
    if b then 1 else 0
  }

  /** One message per key message, and one for each other field that is set. */
  lemma BrandMessagesCount(v: BrandVoice)
    ensures |BrandMessages(v)| == |v.keyMessages|
      + Count(Truthy(v.companyName)) + Count(Truthy(v.tagline)) + Count(v.brandColors != [])
      + Count(v.toneKeywords != []) + Count(Truthy(v.writingStyle)) + Count(Truthy(v.targetAudience))
      + Count(v.avoidPhrases != []) + Count(v.preferredPhrases != []) + Count(Truthy(v.customGuidelines))
  {
    var style := if Truthy(v.writingStyle) then ["We write in a " + v.writingStyle.value + " style"] else [];
    assert |style| == Count(Truthy(v.writingStyle));
    assert |KeyMessageLines(v.keyMessages)| == |v.keyMessages|;
  }

  /** The default voice is saved as exactly three messages. */
  lemma DefaultVoiceMessages(orgId: string)
    ensures |BrandMessages(DefaultBrandVoice(orgId))| == 3
  {
    BrandMessagesCount(DefaultBrandVoice(orgId));
  }

  /** `_build_brand_messages`: the append chain, with a loop over the key messages. */
  method BuildBrandMessages(v: BrandVoice) returns (messages: seq<string>)
    ensures messages == BrandMessages(v)
  {
    messages := TextLine("Our company name is ", v.companyName);
    messages := messages + TextLine("Our tagline is: ", v.tagline);
    messages := messages + ListLine("Brand colors: ", v.brandColors, ", ");
    messages := messages + ListLine("Our brand tone is ", v.toneKeywords, ", ");
    messages := messages + (if Truthy(v.writingStyle) then ["We write in a " + v.writingStyle.value + " style"] else []);
    messages := messages + TextLine("Our target audience is ", v.targetAudience);
    ghost var head := messages;
    var i := 0;
    while i < |v.keyMessages|
      invariant 0 <= i <= |v.keyMessages|
      invariant messages == head + KeyMessageLines(v.keyMessages[..i])
    {
      assert KeyMessageLines(v.keyMessages[..i + 1]) == KeyMessageLines(v.keyMessages[..i]) + ["Key message: " + v.keyMessages[i]];
      messages := messages + ["Key message: " + v.keyMessages[i]];
      i := i + 1;
    }
    assert v.keyMessages[..i] == v.keyMessages;
    messages := messages + ListLine("Avoid using: ", v.avoidPhrases, ", ");
    messages := messages + ListLine("Prefer using: ", v.preferredPhrases, ", ");
    messages := messages + TextLine("Brand guideline: ", v.customGuidelines);
  }

  // ---------------------------------------------------------------- get_brand_prompt

  const FallbackPrompt := "Use professional, clear language."

  /** The prompt lines for a voice, in the fixed field order; colours are not used. */
  function BrandPromptParts(v: BrandVoice): seq<string>
  {
    TextLine("Company: ", v.companyName)
    + TextLine("Tagline: ", v.tagline)
    + ListLine("Tone: ", v.toneKeywords, ", ")
    + TextLine("Writing Style: ", v.writingStyle)
    + TextLine("Target Audience: ", v.targetAudience)
    + ListLine("Key Messages: ", v.keyMessages, "; ")
    + ListLine("Use phrases like: ", v.preferredPhrases, ", ")
    + ListLine("Avoid: ", v.avoidPhrases, ", ")
    + TextLine("Additional Guidelines: ", v.customGuidelines)
  }

  function BrandPrompt(v: BrandVoice): string
  {
    var parts := BrandPromptParts(v);
    if parts == [] then FallbackPrompt else Join(parts, "\n")
  }

  /** Whether any field the prompt uses is set. */
  predicate HasPromptFields(v: BrandVoice)
  {
    Truthy(v.companyName) || Truthy(v.tagline) || v.toneKeywords != [] || Truthy(v.writingStyle)
    || Truthy(v.targetAudience) || v.keyMessages != [] || v.preferredPhrases != [] || v.avoidPhrases != []
    || Truthy(v.customGuidelines)
  }

  /** The fallback sentence is used exactly when no prompt field is set; colours never matter. */
  lemma BrandPromptFallback(v: BrandVoice, colors: seq<string>, primary: Option<string>)
    ensures !HasPromptFields(v) ==> BrandPrompt(v) == FallbackPrompt
    ensures HasPromptFields(v) <==> BrandPromptParts(v) != []
    ensures BrandPrompt(v.(brandColors := colors, primaryColor := primary)) == BrandPrompt(v)
  {
  }

  /** With only a company name, the prompt is that one line. */
  lemma BrandPromptNameOnly(orgId: string, name: string)
    requires name != ""
    ensures BrandPrompt(EmptyVoice(orgId).(companyName := Some(name))) == "Company: " + name
  {
  }

  /** `get_brand_prompt`: the append chain, then the join or the fallback sentence. */
  method GetBrandPrompt(v: BrandVoice) returns (prompt: string)
    ensures prompt == BrandPrompt(v)
  {
    var parts: seq<string> := TextLine("Company: ", v.companyName);
    parts := parts + TextLine("Tagline: ", v.tagline);
    parts := parts + ListLine("Tone: ", v.toneKeywords, ", ");
    parts := parts + TextLine("Writing Style: ", v.writingStyle);
    parts := parts + TextLine("Target Audience: ", v.targetAudience);
    parts := parts + ListLine("Key Messages: ", v.keyMessages, "; ");
    parts := parts + ListLine("Use phrases like: ", v.preferredPhrases, ", ");
    parts := parts + ListLine("Avoid: ", v.avoidPhrases, ", ");
    parts := parts + TextLine("Additional Guidelines: ", v.customGuidelines);
    assert parts == BrandPromptParts(v);
    prompt := if parts == [] then FallbackPrompt else Join(parts, "\n");
  }

  // ---------------------------------------------------------------- the service

  /** What a Mem0 search returns: a list of memory records, or an exception. */
  datatype SearchReply = SearchResults(memories: seq<Option<string>>) | SearchRaised

  /** The value given to `update_brand_element`: a list or a single text. */
  datatype ElementValue = ListValue(items: seq<string>) | TextValue(text: string)

  function ElementText(value: ElementValue): string
  {
    match value
    case ListValue(items) => Join(items, ", ")
    case TextValue(t) => t
  }

  function ElementMessage(element: string, value: ElementValue): string
  {
    "Brand " + element + ": " + ElementText(value)
  }

  /** The number of leading messages whose `add` succeeds, counting at most `n`. */
  function AddsBeforeFailure(addOk: nat -> bool, n: nat): (k: nat)
    ensures k <= n
    ensures forall j :: 0 <= j < k ==> addOk(j)
    ensures k < n ==> !addOk(k)
  {
    if n == 0 then 0
    else
      var k := AddsBeforeFailure(addOk, n - 1);
      if k == n - 1 && addOk(n - 1) then n else k
  }

  function Tagged(userId: string, msgs: seq<string>): (r: seq<(string, string)>)
    ensures |r| == |msgs|
    ensures forall i :: 0 <= i < |msgs| ==> r[i] == (userId, msgs[i])
  {
    seq(|msgs|, i requires 0 <= i < |msgs| => (userId, msgs[i]))
  }

  class BrandMemoryService {
    /** `api_key or MEM0_API_KEY`. */
    const apiKey: Option<string>
    /** Whether `_mem0_client` holds a client. */
    var hasClient: bool
    /** How many clients have been created. */
    var clientsCreated: nat
    /** Every completed `client.add`, as (user id, message content), in order. */
    var added: seq<(string, string)>

    ghost predicate Valid()
      reads this
    {
      clientsCreated <= 1 && (hasClient <==> clientsCreated == 1) && (hasClient ==> Truthy(apiKey))
    }

    constructor(apiKey: Option<string>, envKey: Option<string>)
      ensures this.apiKey == (if Truthy(apiKey) then apiKey else envKey)
      ensures !hasClient && clientsCreated == 0 && added == []
      ensures Valid()
    {
      this.apiKey := if Truthy(apiKey) then apiKey else envKey;
      hasClient := false;
      clientsCreated := 0;
      added := [];
    }

    /**
     * `_get_client`: creates the client on first use when a key is set; `initOk`
     * says whether constructing it succeeds. A second client is never created.
     */
    method GetClient(initOk: bool) returns (client: bool)
      requires Valid()
      modifies this
      ensures Valid()
      ensures client == hasClient
      ensures hasClient == (old(hasClient) || (Truthy(apiKey) && initOk))
      ensures clientsCreated == old(clientsCreated) + (if !old(hasClient) && Truthy(apiKey) && initOk then 1 else 0)
      ensures added == old(added)
    {
      if !hasClient && Truthy(apiKey) {
        if initOk {
          hasClient := true;
          clientsCreated := clientsCreated + 1;
        }
      }
      client := hasClient;
    }

    /** `get_brand_voice`: the default voice without a client, on an exception, or with no results. */
    method GetBrandVoice(orgId: string, initOk: bool, reply: SearchReply) returns (v: BrandVoice)
      requires Valid()
      modifies this
      ensures Valid()
      ensures hasClient == (old(hasClient) || (Truthy(apiKey) && initOk))
      ensures added == old(added)
      ensures !hasClient || reply.SearchRaised? || (reply.SearchResults? && reply.memories == []) ==> v == DefaultBrandVoice(orgId)
      ensures hasClient && reply.SearchResults? && reply.memories != [] ==> v == ParseMemories(orgId, reply.memories)
    {
      var client := GetClient(initOk);
      if !client {
        return DefaultBrandVoice(orgId);
      }
      match reply
      case SearchRaised =>
        v := DefaultBrandVoice(orgId);
      case SearchResults(memories) =>
        if memories == [] {
          v := DefaultBrandVoice(orgId);
        } else {
          v := ParseBrandMemories(orgId, memories);
        }
    }

    /**
     * `save_brand_voice`: false without a client; otherwise one `add` per built
     * message, in order, under the organisation's user, until an `add` fails.
     */
    method SaveBrandVoice(voice: BrandVoice, initOk: bool, addOk: nat -> bool) returns (ok: bool)
      requires Valid()
      modifies this
      ensures Valid()
      ensures hasClient == (old(hasClient) || (Truthy(apiKey) && initOk))
      ensures !hasClient ==> !ok && added == old(added)
      ensures hasClient ==>
        var msgs := BrandMessages(voice);
        var n := AddsBeforeFailure(addOk, |msgs|);
        ok == (n == |msgs|) && added == old(added) + Tagged(UserId(voice.orgId), msgs[..n])
    {
      var client := GetClient(initOk);
      if !client {
        return false;
      }
      var messages := BuildBrandMessages(voice);
      ok := AddMessages(UserId(voice.orgId), messages, addOk);
    }

    /** One `add` per message, in order, under `userId`, until an `add` fails. */
    method AddMessages(userId: string, messages: seq<string>, addOk: nat -> bool) returns (ok: bool)
      requires Valid() && hasClient
      modifies this
      ensures Valid() && hasClient && clientsCreated == old(clientsCreated)
      ensures var n := AddsBeforeFailure(addOk, |messages|);
              ok == (n == |messages|) && added == old(added) + Tagged(userId, messages[..n])
    {
      ghost var n := AddsBeforeFailure(addOk, |messages|);
      var i := 0;
      while i < |messages|
        invariant 0 <= i <= n
        invariant Valid() && hasClient && clientsCreated == old(clientsCreated)
        invariant added == old(added) + Tagged(userId, messages[..i])
      {
        if !addOk(i) {
          return false;
        }
        assert Tagged(userId, messages[..i + 1]) == Tagged(userId, messages[..i]) + [(userId, messages[i])];
        added := added + [(userId, messages[i])];
        i := i + 1;
      }
      return true;
    }

    /** `update_brand_element`: one "Brand <element>: <value>" message, false without a client or on failure. */
    method UpdateBrandElement(orgId: string, element: string, value: ElementValue, initOk: bool, addOk: bool)
      returns (ok: bool)
      requires Valid()
      modifies this
      ensures Valid()
      ensures hasClient == (old(hasClient) || (Truthy(apiKey) && initOk))
      ensures ok == (hasClient && addOk)
      ensures added == old(added) + (if ok then [(UserId(orgId), ElementMessage(element, value))] else [])
    {
      var client := GetClient(initOk);
      if !client {
        return false;
      }
      if !addOk {
        return false;
      }
      added := added + [(UserId(orgId), "Brand " + element + ": " + ElementText(value))];
      return true;
    }
  }

  /**
   * A failed construction leaves `_mem0_client` unset, so the next use of a
   * service with a key tries again: the first call gets no client, the second
   * one gets the only client ever created.
   */
  method FailedInitIsRetried(key: string) returns (first: bool, second: bool, created: nat)
    requires key != ""
    ensures !first && second && created == 1
  {
    var service := new BrandMemoryService(Some(key), None);
    first := service.GetClient(false);
    second := service.GetClient(true);
    created := service.clientsCreated;
  }
}
