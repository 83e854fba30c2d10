/**
  The voice choice made before each utterance, in `speech_worker` and again in
  `speak`: the first installed voice whose lower-cased name or identifier
  names the requested gender, or the engine's default when none does. The
  speech engine, its thread and queue are not modelled.
*/
module Voice {
  import opened Wrappers
  import opened PyText

  datatype Voice = Voice(name: string, id: string)

  /**
    The test as the source writes it. For a male request it asks whether the
    name contains "male", which every name containing "female" does.
  */
  predicate VoiceMatchesAsWritten(v: Voice, female: bool) {
    var name := Lower(v.name);
    var id := Lower(v.id);
    if female then Contains(name, "female") || Contains(id, "zira") || Contains(id, "eva")
    else Contains(name, "male") || Contains(id, "david") || Contains(id, "mark")
  }

  /**
    The test as intended: a name counts as male only when it does not say
    "female". Everything else is unchanged.
  */
  predicate VoiceMatches(v: Voice, female: bool) {
    var name := Lower(v.name);
    var id := Lower(v.id);
    if female then Contains(name, "female") || Contains(id, "zira") || Contains(id, "eva")
    else (Contains(name, "male") && !Contains(name, "female")) || Contains(id, "david") || Contains(id, "mark")
  }

  /** Every name containing "female" contains "male". */
  lemma {:induction false} FemaleContainsMale(hay: string)
    requires Contains(hay, "female")
    ensures Contains(hay, "male")
    decreases |hay|
  {
    if "female" <= hay {
      assert hay[2..6] == "male";
      ContainsAt(hay, "male", 2);
    } else {
      FemaleContainsMale(hay[1..]);
    }
  }

  /** As written, a male request accepts every voice whose name says "female". */
  lemma AsWrittenMaleAcceptsFemaleNames(v: Voice)
    requires Contains(Lower(v.name), "female")
    ensures VoiceMatchesAsWritten(v, false)
  {
    FemaleContainsMale(Lower(v.name));
  }

  /** An identifier spelling "MARK" with a Kelvin sign folds to "mark" and names a male voice. */
  lemma KelvinSignIdMatchesMark()
    ensures VoiceMatchesAsWritten(Voice("", "MAR\U{212A}"), false)
    ensures VoiceMatches(Voice("", "MAR\U{212A}"), false)
  {
    LowerFolds("MAR\U{212A}");
    assert Lower("MAR\U{212A}") == "mark";
    ContainsAt("mark", "mark", 0);
  }

  /** A concrete voice list on which the two tests pick differently. */
  lemma MaleRequestPicksFemaleVoice()
    ensures VoiceMatchesAsWritten(Voice("Female", ""), false)
    ensures !VoiceMatches(Voice("Female", ""), false)
  {
    var name := Lower("Female");
    LowerFolds("Female");
    assert name == "female";
    assert "female" <= name;
    AsWrittenMaleAcceptsFemaleNames(Voice("Female", ""));
  }

  /**
    The corrected test differs from the written one only for male requests
    and voices whose name says "female", and a male request now takes such a
    voice only when its identifier names a male voice.
  */
  lemma CorrectedMatchDiffersOnlyOnFemaleNames(v: Voice, female: bool)
    ensures female || !Contains(Lower(v.name), "female") ==>
      (VoiceMatches(v, female) <==> VoiceMatchesAsWritten(v, female))
    ensures !female && VoiceMatches(v, female) && Contains(Lower(v.name), "female") ==>
      Contains(Lower(v.id), "david") || Contains(Lower(v.id), "mark")
  {
  }

  /**
    The selection loop with its early `break`: the index of the first
    matching voice, or `None` when no voice matches and the default is kept.
  */
  method SelectVoice(voices: seq<Voice>, female: bool) returns (selected: Option<nat>)
    ensures selected.Some? ==>
      selected.value < |voices| && VoiceMatches(voices[selected.value], female)
      && forall j :: 0 <= j < selected.value ==> !VoiceMatches(voices[j], female)
    ensures selected.None? ==> forall j :: 0 <= j < |voices| ==> !VoiceMatches(voices[j], female)
  {
    selected := None;
    for i := 0 to |voices|
      invariant forall j :: 0 <= j < i ==> !VoiceMatches(voices[j], female)
    {
      if VoiceMatches(voices[i], female) {
        return Some(i);
      }
    }
  }
}
