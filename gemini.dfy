/**
 * src/services/gemini.ts: identifying a pet from a photo. The HTTP exchange is
 * the `Reply` parameter (its content is `candidates[0]?.content?.parts[0]?.text`);
 * `keyConfigured` stands for a truthy VITE_GEMINI_API_KEY.
 */
module Gemini {
  import opened Wrappers
  import opened Json
  import JsonSpan

  /**
   * The parse of the first-'{'-to-last-'}' span of the reply text, with no
   * check of its fields; `None` for every failure, and without a key no
   * reply is looked at.
   */
  function IdentifyPet(keyConfigured: bool, reply: Reply, parse: string -> Option<Json>): (info: Option<Json>)
    ensures info.Some? <==>
      && keyConfigured && ContentOf(reply).Some?
      && JsonSpan.ExtractSpan(ContentOf(reply).value).Some?
      && parse(JsonSpan.ExtractSpan(ContentOf(reply).value).value).Some?
    ensures info.Some? ==> info == parse(JsonSpan.ExtractSpan(ContentOf(reply).value).value)
  {
    if !keyConfigured then None
    else match ContentOf(reply)
      case None => None
      case Some(text) => JsonSpan.ParseEmbedded(text, parse)
  }

  /** Without a key the result does not depend on any reply: no request is made. */
  lemma NoKeyIgnoresReply(a: Reply, b: Reply, parse: string -> Option<Json>)
    ensures IdentifyPet(false, a, parse) == IdentifyPet(false, b, parse) == None
  {
  }

  /** A photo description wrapped in prose is parsed as that object alone. */
  lemma IdentifyFromProse(before: string, obj: string, after: string, parse: string -> Option<Json>)
    requires '{' !in before && '}' !in after
    requires |obj| >= 2 && obj[0] == '{' && obj[|obj| - 1] == '}'
    ensures IdentifyPet(true, Received(Some(before + obj + after)), parse) == parse(obj)
  {
    JsonSpan.ExtractFromProse(before, obj, after);
  }
}
