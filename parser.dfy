/**
  `parse_message`: the chat model is asked to turn the user's sentence into a
  JSON object with the fields game, character, sex and message. The model's
  reply and the JSON decoder are outside the plugin, so they are parameters:
  `reply` is the text of the model's answer (`None` when the call raised or
  returned no text) and `decode` stands for `json.loads` (`None` when it
  raises). A decoded object is kept at the level of its string fields.
*/
module Parser {
  import opened Wrappers
  import opened PyText
  import opened Transport

  type Dict = map<string, string>

  /** `d.get(key, default)`. */
  function Get(d: Dict, key: string, default: string): string {
    if key in d then d[key] else default
  }

  /** The object returned when parsing fails. */
  function Fallback(input: string): Dict {
    map["game" := "Unknown", "character" := "Unknown", "sex" := "male", "message" := input]
  }

  /**
    The parsed object: the decoded greedy `{...}` span of the reply, or the
    fallback when there is no reply, no span, or the span does not decode.
  */
  function ParseMessage(input: string, reply: Option<string>, decode: string -> Option<Dict>): (d: Dict)
    ensures d == Fallback(input) <== (reply.None? || ExtractObject(reply.value).None?
                                      || decode(ExtractObject(reply.value).value).None?)
    ensures reply.Some? && ExtractObject(reply.value).Some? && decode(ExtractObject(reply.value).value).Some? ==>
      d == decode(ExtractObject(reply.value).value).value
    ensures d != Fallback(input) ==>
      reply.Some? && ExtractObject(reply.value).Some? && decode(ExtractObject(reply.value).value) == Some(d)
  {
    match reply
    case None => Fallback(input)
    case Some(text) =>
      match ExtractObject(text)
      case None => Fallback(input)
      case Some(span) =>
        match decode(span)
        case None => Fallback(input)
        case Some(obj) => obj
  }

  /**
    Whatever goes wrong, the fallback carries the user's words unchanged, the
    placeholder persona "Unknown"/"Unknown" and a male voice.
  */
  lemma FallbackKeepsInput(input: string, reply: Option<string>, decode: string -> Option<Dict>)
    requires reply.None? || !HasObjectSpan(reply.value) || decode(ExtractObject(reply.value).value).None?
    ensures var d := ParseMessage(input, reply, decode);
      d.Keys == {"game", "character", "sex", "message"}
      && d["message"] == input && d["game"] == "Unknown" && d["character"] == "Unknown"
      && d["sex"] == "male"
      && !SpeaksFemale(d)
  {
    var d := Fallback(input);
    LowerFolds(d["sex"]);
    assert Lower(d["sex"])[0] == 'm';
  }

  /** The speech flag: `parsed.get('sex', '').lower() == 'female'`. */
  predicate SpeaksFemale(parsed: Dict) {
    Lower(Get(parsed, "sex", "")) == "female"
  }

  /** The flag is case-insensitive and needs a "sex" field spelling "female". */
  lemma SpeaksFemaleExactly(parsed: Dict)
    ensures SpeaksFemale(parsed) <==>
      "sex" in parsed && |parsed["sex"]| == 6
      && forall i :: 0 <= i < 6 ==> LowerChar(parsed["sex"][i]) == "female"[i]
  {
    var s := Get(parsed, "sex", "");
    LowerFolds(s);
    if |s| == 6 && forall i :: 0 <= i < 6 ==> LowerChar(s[i]) == "female"[i] {
      assert Lower(s) == "female";
    }
  }
}
