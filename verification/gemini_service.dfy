/**
 * The script-generation service (services/geminiService.ts): the fixed system
 * instruction, the prompt composed from the seven form values, and the wrapper
 * that turns the model's reply into the script shown to the user.
 *
 * The external text-generation call is a parameter `model`: the model sees the
 * composed request and answers with a `Reply`, which may be a failure.
 */
module GeminiService {
  import opened Wrappers

  // ---------------------------------------------------------------------------
  // Occurrence of one string inside another
  // ---------------------------------------------------------------------------

  /** `sub` occurs in `s` starting at index `i`. */
  predicate OccursAt(s: string, sub: string, i: int) {
    0 <= i && i + |sub| <= |s| && s[i..i + |sub|] == sub
  }

  ghost predicate Contains(s: string, sub: string) {
    exists i :: OccursAt(s, sub, i)
  }

  lemma ContainsAtEnd(pre: string, sub: string)
    ensures Contains(pre + sub, sub)
  {
    assert OccursAt(pre + sub, sub, |pre|) by {
      assert (pre + sub)[|pre|..|pre| + |sub|] == sub;
    }
  }

  /** What a string contains, it still contains after text is appended. */
  lemma ContainsExtend(s: string, post: string, sub: string)
    requires Contains(s, sub)
    ensures Contains(s + post, sub)
  {
    var i :| OccursAt(s, sub, i);
    assert (s + post)[i..i + |sub|] == s[i..i + |sub|];
    assert OccursAt(s + post, sub, i);
  }

  /** What a string contains, it still contains after text is put in front. */
  lemma ContainsShift(pre: string, s: string, sub: string)
    requires Contains(s, sub)
    ensures Contains(pre + s, sub)
  {
    var i :| OccursAt(s, sub, i);
    assert (pre + s)[|pre| + i..|pre| + i + |sub|] == s[i..i + |sub|];
    assert OccursAt(pre + s, sub, |pre| + i);
  }

  /** `prefix` is the head of `s`. */
  predicate StartsWith(s: string, prefix: string) {
    |prefix| <= |s| && s[..|prefix|] == prefix
  }

  /** A string starts with each of its prefixes. */
  lemma StartsWithAppended(prefix: string, rest: string)
    ensures StartsWith(prefix + rest, prefix)
  {
    assert (prefix + rest)[..|prefix|] == prefix;
  }

  /** An occurrence stays one, further along, when text is put in front. */
  lemma OccursShift(pre: string, s: string, sub: string, j: int)
    requires OccursAt(s, sub, j)
    ensures OccursAt(pre + s, sub, |pre| + j)
  {
    assert (pre + s)[|pre| + j..|pre| + j + |sub|] == s[j..j + |sub|];
  }

  /** An occurrence stays one when text is appended. */
  lemma OccursExtend(s: string, post: string, sub: string, j: int)
    requires OccursAt(s, sub, j)
    ensures OccursAt(s + post, sub, j)
  {
    assert (s + post)[j..j + |sub|] == s[j..j + |sub|];
  }

  /** A text made of a head, a middle, a separator and a tail: the head starts it, the separator and the tail follow the middle. */
  lemma Framed(head: string, mid: string, sep: string, tail: string)
    ensures StartsWith(head + mid + sep + tail, head)
    ensures (head + mid + sep + tail)[|head| + |mid|..|head| + |mid| + |sep|] == sep
    ensures (head + mid + sep + tail)[|head| + |mid| + |sep|..] == tail
  {
    assert (head + mid + sep + tail)[..|head|] == head;
    assert head + mid + sep + tail == (head + mid) + (sep + tail);
    assert head + mid + sep + tail == (head + mid + sep) + tail;
  }

  // ---------------------------------------------------------------------------
  // Trimming, as JavaScript's String.prototype.trim does it
  // ---------------------------------------------------------------------------

  /** The characters `trim` removes: ECMAScript white space and line terminators. */
  predicate IsSpace(c: char) {
    c == '\t' || c == '\n' || c == '\U{000B}' || c == '\U{000C}' || c == '\r' || c == ' '
    || c == '\U{00A0}' || c == '\U{1680}' || ('\U{2000}' <= c <= '\U{200A}')
    || c == '\U{2028}' || c == '\U{2029}' || c == '\U{202F}' || c == '\U{205F}'
    || c == '\U{3000}' || c == '\U{FEFF}'
  }

  /** Neither the first nor the last character is white space. */
  predicate IsTrimmed(s: string) {
    s == [] || (!IsSpace(s[0]) && !IsSpace(s[|s| - 1]))
  }

  /** `r` is the infix of `s` at `i`, and everything around it is white space. */
  predicate CoreAt(s: string, r: string, i: int) {
    0 <= i && i + |r| <= |s| && r == s[i..i + |r|]
    && (forall k :: 0 <= k < i ==> IsSpace(s[k]))
    && (forall k :: i + |r| <= k < |s| ==> IsSpace(s[k]))
  }

  /** The first index at or after `i` that is not white space, or the length: where `trim`'s result starts. */
  function SkipSpaces(s: string, i: nat): (j: nat)
    requires i <= |s|
    ensures i <= j <= |s|
    ensures forall k :: i <= k < j ==> IsSpace(s[k])
    ensures j == |s| || !IsSpace(s[j])
    decreases |s| - i
  {
    if i < |s| && IsSpace(s[i]) then SkipSpaces(s, i + 1) else i
  }

  /** Scanning back from `j`, but not past `lo`, to just after the last character that is not white space. */
  function SkipSpacesBack(s: string, lo: nat, j: nat): (e: nat)
    requires lo <= j <= |s|
    ensures lo <= e <= j
    ensures forall k :: e <= k < j ==> IsSpace(s[k])
    ensures e == lo || !IsSpace(s[e - 1])
    decreases j
  {
    if lo < j && IsSpace(s[j - 1]) then SkipSpacesBack(s, lo, j - 1) else j
  }

  /** `s.trim()`: `s` without its leading and trailing white space. */
  function Trim(s: string): (r: string)
    ensures IsTrimmed(r)
    ensures exists i :: CoreAt(s, r, i)
  {
    var a := SkipSpaces(s, 0);
    var b := SkipSpacesBack(s, a, |s|);
    assert CoreAt(s, s[a..b], a);
    s[a..b]
  }

  /** A string without surrounding white space is its own trim. */
  lemma TrimOfTrimmed(s: string)
    requires IsTrimmed(s)
    ensures Trim(s) == s
  {
    var r := Trim(s);
    var i :| CoreAt(s, r, i);
    if s != [] {
      assert !IsSpace(s[0]) && !IsSpace(s[|s| - 1]);
      assert i == 0 && i + |r| == |s|;
    }
  }

  /** Trimming twice is trimming once. */
  lemma TrimIdempotent(s: string)
    ensures Trim(Trim(s)) == Trim(s)
  {
    TrimOfTrimmed(Trim(s));
  }

  // ---------------------------------------------------------------------------
  // The request sent to the model
  // ---------------------------------------------------------------------------

  // The long texts are written as concatenations of short phrases; the value
  // of each constant is the source's text exactly.

  const SystemInstruction: string :=
    "You are an expert sales scriptwriter for the "
    + "Blockchain Summit LATAM 2025. You must follow "
    + "the provided sales manual's principles "
    + "precisely. Your goal is to generate a "
    + "personalized, effective outreach message based "
    + "on the user's input. Adhere strictly to the "
    + "tone, structure, and key selling points from "
    + "the manual. Your response must be only the "
    + "script text, without any preamble or "
    + "explanation."

  const DefaultPosition: string := "decision maker"
  const NoContext: string := "N/A"
  const WaitDirective: string := "[Wait 2-3 minutes after they reply to your greeting]"

  const CentralBanks: string := "Central Banks"
  const Bis: string := "BIS"
  const BlackRock: string := "BlackRock"
  const JpMorganColombia: string := "JP Morgan Colombia"
  const Bancolombia: string := "Bancolombia"
  const BancoPopular: string := "Banco Popular"

  const RulesHeading: string :=
    "\n---\nMANUAL RULES & KEY INFORMATION TO USE:\n"
    + "- Event Name: Blockchain Summit LATAM 2025 in "
    + "Medell\U{00ED}n, Colombia.\n"

  const AttendeesIntro: string :=
    "- Confirmed Attendees (Social Proof): "
    + "Prioritize mentioning "

  /** The social-proof line: regulators first, then institutional players. */
  const AttendeesLine: string :=
    AttendeesIntro + CentralBanks
    + " (Colombia, Brazil, Mexico, Chile) and " + Bis
    + ". Then, mention institutional players like " + BlackRock
    + ", " + JpMorganColombia
    + ", " + Bancolombia
    + ", and " + BancoPopular
    + ".\n"

  const ToneAndStructure: string :=
    "- Core Value Proposition: Unparalleled access "
    + "to regulatory decision-makers and institutional "
    + "leaders in LATAM.\n"
    + "- Tone: Professional, confident, value-first, "
    + "never desperate.\n"
    + "- Structure:\n"
    + "    1. Greeting (platform-appropriate).\n"
    + "    2. Authority statement (e.g., 'I'm in "
    + "charge of public relations...').\n"
    + "    3. Core value prop with social proof.\n"
    + "    4. Personalization based on focus area and "
    + "context.\n"
    + "    5. Clear Call to Action (CTA) ending with a "
    + "question.\n"

  const CrucialRuleIntro: string :=
    "- CRUCIAL RULE (LinkedIn Initial Contact): For "
    + "a LinkedIn initial contact, you MUST simulate "
    + "the 2-3 minute wait rule between the greeting "
    + "and the main pitch. Explicitly state this in "
    + "the script like: \""

  const CrucialRuleLine: string := CrucialRuleIntro + WaitDirective + "\".\n"

  const ObjectionLine: string :=
    "- Objection Handling: When generating responses "
    + "to objections, use the provided frameworks. For "
    + "'Tell me here first', use the \"Value Preview "
    + "Method\": provide a few key names (BIS, 4 "
    + "Central Banks, BlackRock, JP Morgan) and then "
    + "justify the need for email for organizational "
    + "purposes.\n"

  const Closing: string := "---\nNow, generate the script.\n"

  /** The manual's rules, identical in every prompt. */
  const RulesBlock: string :=
    RulesHeading + AttendeesLine + ToneAndStructure + CrucialRuleLine + ObjectionLine + Closing

  const Heading: string := "\nGenerate a sales outreach script with the following details:"

  /** JavaScript's `value || fallback` on strings: the empty string is falsy. */
  function OrDefault(value: string, fallback: string): string {
    if value == "" then fallback else value
  }

  /** Each item on a line of its own, after "- ". */
  function Bullets(items: seq<string>): string {
    if items == [] then "" else "\n- " + items[0] + Bullets(items[1..])
  }

  /** The five interpolated details, in the order the template lists them. */
  function DetailItems(contactName: string, company: string, position: string, platform: string,
                       messageType: string, context: string, focus: string): seq<string>
  {
    [ "Target Contact: " + contactName + ", " + OrDefault(position, DefaultPosition) + " at " + company + "."
    , "Platform: " + platform
    , "Message Type: " + messageType
    , "Specific Focus Area: " + focus
    , "Optional Context: " + OrDefault(context, NoContext)
    ]
  }

  /**
   * From `offset` on, `s` holds the items' bullet lines one after another:
   * each item right after its own line break and "- ".
   */
  predicate ItemsAt(s: string, items: seq<string>, offset: int)
    decreases |items|
  {
    items == [] || (OccursAt(s, "\n- " + items[0], offset) && ItemsAt(s, items[1..], offset + 3 + |items[0]|))
  }

  lemma Regroup(pre: string, line: string, rest: string, post: string)
    ensures pre + (line + rest) + post == pre + line + rest + post
  {
  }

  /** A bullet list's items sit in it in their order, wherever the list is put. */
  lemma {:induction false} BulletsItemsAt(pre: string, items: seq<string>, post: string)
    ensures ItemsAt(pre + Bullets(items) + post, items, |pre|)
    decreases |items|
  {
    if items != [] {
      var line := "\n- " + items[0];
      var rest := Bullets(items[1..]);
      assert OccursAt(line, line, 0);
      OccursShift(pre, line, line, 0);
      OccursExtend(pre + line, rest, line, |pre|);
      OccursExtend(pre + line + rest, post, line, |pre|);
      BulletsItemsAt(pre + line, items[1..], post);
      Regroup(pre, line, rest, post);
    }
  }

  /** The items of a bullet list framed by a head and, after a separator, a tail sit after the head. */
  lemma FramedItemsAt(head: string, items: seq<string>, sep: string, tail: string)
    ensures ItemsAt(head + Bullets(items) + sep + tail, items, |head|)
  {
    BulletsItemsAt(head, items, sep + tail);
    assert head + Bullets(items) + (sep + tail) == head + Bullets(items) + sep + tail;
  }

  /**
   * `s` is `head`, then the items' bullet lines in order, then a line break,
   * then `tail` and nothing after it.
   */
  predicate BulletedBetween(s: string, head: string, items: seq<string>, tail: string) {
    && StartsWith(s, head)
    && ItemsAt(s, items, |head|)
    && var k := |head| + |Bullets(items)|;
    && k + 1 <= |s|
    && s[k..k + 1] == "\n"
    && s[k + 1..] == tail
  }

  /** A bullet list between a head and, after a line break, a tail is laid out that way. */
  lemma BulletsBetween(head: string, items: seq<string>, tail: string)
    ensures BulletedBetween(head + Bullets(items) + "\n" + tail, head, items, tail)
  {
    Framed(head, Bullets(items), "\n", tail);
    FramedItemsAt(head, items, "\n", tail);
  }

  /** The prompt: the heading, the detail lines, then the rules block. */
  function Prompt(contactName: string, company: string, position: string, platform: string,
                  messageType: string, context: string, focus: string): string
  {
    Heading + Bullets(DetailItems(contactName, company, position, platform, messageType, context, focus)) + "\n" + RulesBlock
  }

  /**
   * Every prompt starts with the same heading, follows it with the five
   * details one per line in the template's order, then a line break and the
   * same rules block, which ends it, whatever the form values.
   */
  lemma PromptLayout(contactName: string, company: string, position: string, platform: string,
                     messageType: string, context: string, focus: string)
    ensures BulletedBetween(Prompt(contactName, company, position, platform, messageType, context, focus),
                            Heading, DetailItems(contactName, company, position, platform, messageType, context, focus),
                            RulesBlock)
  {
    BulletsBetween(Heading, DetailItems(contactName, company, position, platform, messageType, context, focus), RulesBlock);
  }

  const ModelName: string := "gemini-2.5-flash"
  const Temperature: real := 0.7

  /** The call's arguments: the model, the prompt as contents, and the configuration. */
  datatype ModelRequest = ModelRequest(model: string, contents: string, systemInstruction: string, temperature: real)

  /** What the external model answers: a response whose text may be absent, or a failed call. */
  datatype Reply = Reply(text: Option<string>) | CallFailed

  /**
   * The one request the service sends for the seven form values: the model,
   * the system instruction and the temperature are fixed; the contents are
   * the prompt for those values.
   */
  function Request(contactName: string, company: string, position: string, platform: string,
                   messageType: string, context: string, focus: string): (q: ModelRequest)
    ensures q.model == ModelName && q.systemInstruction == SystemInstruction && q.temperature == Temperature
  {
    ModelRequest(ModelName, Prompt(contactName, company, position, platform, messageType, context, focus),
                 SystemInstruction, Temperature)
  }

  const ErrorReply: string :=
    "Sorry, " + "there was an error generating the script. "
    + "Please check the console for details."

  lemma ErrorReplyTrimmed()
    ensures IsTrimmed(ErrorReply)
  {
    assert ErrorReply[0] == 'S';
    assert ErrorReply[|ErrorReply| - 1] == '.';
  }

  /** The apology is its own trim. */
  lemma ErrorReplyFixed()
    ensures IsTrimmed(ErrorReply) && Trim(ErrorReply) == ErrorReply
  {
    ErrorReplyTrimmed();
    TrimOfTrimmed(ErrorReply);
  }

  /** `r` is what the user gets for `reply`: its text trimmed, or the apology. */
  predicate ScriptFor(reply: Reply, r: string) {
    && (reply.Reply? && reply.text.Some? ==> r == Trim(reply.text.value))
    && (reply.CallFailed? || reply.text.None? ==> r == ErrorReply)
  }

  /**
   * The `try`/`catch` around the call: a reply with text gives that text
   * trimmed; every failure (a failed call, or a reply without text, on which
   * `trim` throws) is caught and becomes `ErrorReply`.
   */
  function ScriptFromReply(reply: Reply): (r: string)
    ensures IsTrimmed(r)
    ensures Trim(r) == r
    ensures reply.Reply? && reply.text.Some? ==> r == Trim(reply.text.value)
    ensures reply.CallFailed? || reply.text.None? ==> r == ErrorReply
  {
    match reply
    case Reply(Some(text)) =>
      TrimIdempotent(text);
      Trim(text)
    case _ =>
      ErrorReplyFixed();
      ErrorReply
  }

  /** Helper: `ScriptFromReply`'s result is the script its reply calls for. */
  lemma ScriptFromReplyIsScriptFor(reply: Reply)
    ensures IsTrimmed(ScriptFromReply(reply)) && ScriptFor(reply, ScriptFromReply(reply))
  {
  }

  /**
   * `generateScript`: one call to the model with the composed request; the
   * script is what `ScriptFromReply` makes of the answer, so it never throws
   * and never has surrounding white space.
   */
  function GenerateScript(contactName: string, company: string, position: string, platform: string,
                          messageType: string, context: string, focus: string,
                          model: ModelRequest -> Reply): (r: string)
    ensures IsTrimmed(r)
    ensures ScriptFor(model(Request(contactName, company, position, platform, messageType, context, focus)), r)
  {
    var reply := model(Request(contactName, company, position, platform, messageType, context, focus));
    ScriptFromReplyIsScriptFor(reply);
    ScriptFromReply(reply)
  }

  // ---------------------------------------------------------------------------
  // What every prompt contains
  // ---------------------------------------------------------------------------

  /** Every item of a bullet list is in its text. */
  lemma {:induction false} BulletsContain(items: seq<string>, k: nat)
    requires k < |items|
    ensures Contains(Bullets(items), items[k])
  {
    var rest := Bullets(items[1..]);
    if k == 0 {
      ContainsAtEnd("\n- ", items[0]);
      ContainsExtend("\n- " + items[0], rest, items[0]);
    } else {
      BulletsContain(items[1..], k - 1);
      ContainsShift("\n- " + items[0], rest, items[k]);
    }
  }

  /** A detail item is in the prompt. */
  lemma PromptContainsItem(contactName: string, company: string, position: string, platform: string,
                           messageType: string, context: string, focus: string, k: nat)
    requires k < 5
    ensures Contains(Prompt(contactName, company, position, platform, messageType, context, focus),
                     DetailItems(contactName, company, position, platform, messageType, context, focus)[k])
  {
    var items := DetailItems(contactName, company, position, platform, messageType, context, focus);
    BulletsContain(items, k);
    ContainsShift(Heading, Bullets(items), items[k]);
    ContainsExtend(Heading + Bullets(items), "\n", items[k]);
    ContainsExtend(Heading + Bullets(items) + "\n", RulesBlock, items[k]);
  }

  /** Every detail item is in the prompt. */
  lemma PromptContainsDetails(contactName: string, company: string, position: string, platform: string,
                              messageType: string, context: string, focus: string)
    ensures forall k :: 0 <= k < 5 ==>
      Contains(Prompt(contactName, company, position, platform, messageType, context, focus),
               DetailItems(contactName, company, position, platform, messageType, context, focus)[k])
  {
    forall k | 0 <= k < 5
      ensures Contains(Prompt(contactName, company, position, platform, messageType, context, focus),
                       DetailItems(contactName, company, position, platform, messageType, context, focus)[k])
    {
      PromptContainsItem(contactName, company, position, platform, messageType, context, focus, k);
    }
  }

  /** Helper: the five detail lines, one by one. */
  lemma DetailItemsText(contactName: string, company: string, position: string, platform: string,
                        messageType: string, context: string, focus: string)
    ensures var d := DetailItems(contactName, company, position, platform, messageType, context, focus);
      && d[0] == "Target Contact: " + contactName + ", " + OrDefault(position, "decision maker") + " at " + company + "."
      && d[1] == "Platform: " + platform
      && d[2] == "Message Type: " + messageType
      && d[3] == "Specific Focus Area: " + focus
      && d[4] == "Optional Context: " + OrDefault(context, "N/A")
  {
  }

  /**
   * The prompt names the contact, the position (or "decision maker" when it is
   * empty) and the company; it gives platform, message type and focus verbatim,
   * and the context, or "N/A" when it is empty.
   */
  lemma PromptCarriesFields(contactName: string, company: string, position: string, platform: string,
                            messageType: string, context: string, focus: string)
    ensures var p := Prompt(contactName, company, position, platform, messageType, context, focus);
      && Contains(p, "Target Contact: " + contactName + ", " + OrDefault(position, "decision maker") + " at " + company + ".")
      && Contains(p, "Platform: " + platform)
      && Contains(p, "Message Type: " + messageType)
      && Contains(p, "Specific Focus Area: " + focus)
      && Contains(p, "Optional Context: " + OrDefault(context, "N/A"))
  {
    DetailItemsText(contactName, company, position, platform, messageType, context, focus);
    PromptContainsDetails(contactName, company, position, platform, messageType, context, focus);
  }

  /** The wait directive and the attendees line sit inside the rules block. */
  lemma RulesBlockContents()
    ensures Contains(RulesBlock, WaitDirective)
    ensures Contains(RulesBlock, AttendeesLine)
  {
    ContainsAtEnd(CrucialRuleIntro, WaitDirective);
    ContainsExtend(CrucialRuleIntro + WaitDirective, "\".\n", WaitDirective);
    var head := RulesHeading + AttendeesLine + ToneAndStructure;
    ContainsShift(head, CrucialRuleLine, WaitDirective);
    ContainsExtend(head + CrucialRuleLine, ObjectionLine, WaitDirective);
    ContainsExtend(head + CrucialRuleLine + ObjectionLine, Closing, WaitDirective);

    ContainsAtEnd(RulesHeading, AttendeesLine);
    ContainsExtend(RulesHeading + AttendeesLine, ToneAndStructure, AttendeesLine);
    ContainsExtend(head, CrucialRuleLine, AttendeesLine);
    ContainsExtend(head + CrucialRuleLine, ObjectionLine, AttendeesLine);
    ContainsExtend(head + CrucialRuleLine + ObjectionLine, Closing, AttendeesLine);
  }

  /**
   * Every prompt asks for the literal wait directive and carries the attendees
   * line, whatever the platform and message type are.
   */
  lemma PromptRules(contactName: string, company: string, position: string, platform: string,
                    messageType: string, context: string, focus: string)
    ensures var p := Prompt(contactName, company, position, platform, messageType, context, focus);
      && Contains(p, "[Wait 2-3 minutes after they reply to your greeting]")
      && Contains(p, AttendeesLine)
  {
    var items := DetailItems(contactName, company, position, platform, messageType, context, focus);
    var details := Heading + Bullets(items) + "\n";
    RulesBlockContents();
    ContainsShift(details, RulesBlock, WaitDirective);
    ContainsShift(details, RulesBlock, AttendeesLine);
  }

  /** `sub` occurs right after `pre` in any line that begins with `pre + sub`. */
  lemma OccursAfter(pre: string, sub: string, line: string)
    requires pre + sub <= line
    ensures OccursAt(line, sub, |pre|)
  {
    assert line[|pre|..|pre| + |sub|] == (pre + sub)[|pre|..];
  }

  /** Six names written one after another into a line occur there in that order, without overlap. */
  lemma InOrder(a0: string, n1: string, a1: string, n2: string, a2: string, n3: string, a3: string,
                n4: string, a4: string, n5: string, a5: string, n6: string, a6: string)
    returns (p1: nat, p2: nat, p3: nat, p4: nat, p5: nat, p6: nat)
    ensures var line := a0 + n1 + a1 + n2 + a2 + n3 + a3 + n4 + a4 + n5 + a5 + n6 + a6;
      && p1 + |n1| <= p2 && p2 + |n2| <= p3 && p3 + |n3| <= p4 && p4 + |n4| <= p5 && p5 + |n5| <= p6
      && OccursAt(line, n1, p1) && OccursAt(line, n2, p2) && OccursAt(line, n3, p3)
      && OccursAt(line, n4, p4) && OccursAt(line, n5, p5) && OccursAt(line, n6, p6)
  {
    var line := a0 + n1 + a1 + n2 + a2 + n3 + a3 + n4 + a4 + n5 + a5 + n6 + a6;
    var q1 := a0 + n1;
    var q2 := q1 + a1 + n2;
    var q3 := q2 + a2 + n3;
    var q4 := q3 + a3 + n4;
    var q5 := q4 + a4 + n5;
    var q6 := q5 + a5 + n6;
    assert q6 <= line;
    assert q5 <= q6 && q4 <= q5 && q3 <= q4 && q2 <= q3 && q1 <= q2;
    p1, p2, p3, p4, p5, p6 := |a0|, |q1 + a1|, |q2 + a2|, |q3 + a3|, |q4 + a4|, |q5 + a5|;
    OccursAfter(a0, n1, line);
    OccursAfter(q1 + a1, n2, line);
    OccursAfter(q2 + a2, n3, line);
    OccursAfter(q3 + a3, n4, line);
    OccursAfter(q4 + a4, n5, line);
    OccursAfter(q5 + a5, n6, line);
  }

  /**
   * In the attendees line the central banks and the BIS come before
   * BlackRock, JP Morgan Colombia, Bancolombia and Banco Popular, in that order.
   */
  lemma AttendeesOrder() returns (cb: nat, bis: nat, br: nat, jpm: nat, bc: nat, bp: nat)
    ensures cb < bis < br < jpm < bc < bp
    ensures OccursAt(AttendeesLine, "Central Banks", cb)
    ensures OccursAt(AttendeesLine, "BIS", bis)
    ensures OccursAt(AttendeesLine, "BlackRock", br)
    ensures OccursAt(AttendeesLine, "JP Morgan Colombia", jpm)
    ensures OccursAt(AttendeesLine, "Bancolombia", bc)
    ensures OccursAt(AttendeesLine, "Banco Popular", bp)
  {
    cb, bis, br, jpm, bc, bp := InOrder(
      AttendeesIntro, CentralBanks, " (Colombia, Brazil, Mexico, Chile) and ",
      Bis, ". Then, mention institutional players like ", BlackRock, ", ",
      JpMorganColombia, ", ", Bancolombia, ", and ", BancoPopular, ".\n");
  }
}
