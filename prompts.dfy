/**
 * The three prompt templates of the password-list generator (one per mode) and the
 * mapping from the selected character type to the phrase the length prompt uses.
 * Every builder is a pure function of the form fields it reads.
 */
module Prompts {
  import opened Wrappers
  import opened JsText

  /** The opening request of the samples prompt: fifty new variations. */
  const SamplesRequest: string :=
    "Analyze the following sample passwords and generate a list of 50 new, plausible password variations."

  /** The rest of the samples instructions: the mutation techniques, then the heading of the samples. */
  const SamplesTechniques: string :=
    " Apply common password mutation techniques such as:\n" +
    "- Character substitutions (e.g., 'a' to '@', 's' to '$', 'i' to '1', 'o' to '0')\n" +
    "- Adding numbers or special characters to the beginning or end\n" +
    "- Case changes (e.g., capitalizing the first letter, alternating case)\n" +
    "- Common prefixes or suffixes (e.g., year numbers like 2023, 2024, 2025, common words like 'admin', 'user')\n" +
    "- Simple permutations or combinations of sample elements.\n" +
    "Ensure the generated passwords are distinct from the samples and from each other. Provide the list as a newline-separated list.\n" +
    "\n" +
    "Samples:\n"

  /** Everything the samples prompt says before the samples themselves. */
  const SamplesInstructions: string := SamplesRequest + SamplesTechniques

  /**
   * The samples prompt: the fixed instructions, opening with the request for fifty
   * variations, followed by the trimmed samples, verbatim.
   */
  function SamplesPrompt(samplePasswords: string): string
  {
    SamplesRequest + (SamplesTechniques + Trim(samplePasswords))
  }

  /**
   * The samples prompt opens with the request for fifty variations, continues with the
   * techniques, and ends with the trimmed samples, verbatim.
   */
  lemma SamplesPromptLayout(samplePasswords: string)
    ensures |SamplesPrompt(samplePasswords)| ==
      |SamplesRequest| + |SamplesTechniques| + |Trim(samplePasswords)|
    ensures SamplesPrompt(samplePasswords)[..|SamplesRequest|] == SamplesRequest
    ensures SamplesPrompt(samplePasswords)[|SamplesRequest|..][..|SamplesTechniques|] == SamplesTechniques
    ensures SamplesPrompt(samplePasswords)[|SamplesInstructions|..] == Trim(samplePasswords)
  {
    Split3(SamplesRequest, SamplesTechniques, Trim(samplePasswords));
  }

  /** How a concatenation of three pieces comes apart again. */
  lemma Split3(a: string, b: string, c: string)
    ensures |a + (b + c)| == |a| + |b| + |c|
    ensures (a + (b + c))[..|a|] == a
    ensures (a + (b + c))[|a|..][..|b|] == b
    ensures (a + (b + c))[|a + b|..] == c
  {
  }

  /** Two sample texts give the same prompt exactly when they trim to the same text. */
  lemma SamplesPromptDeterminesSamples(a: string, b: string)
    ensures SamplesPrompt(a) == SamplesPrompt(b) <==> Trim(a) == Trim(b)
  {
    SamplesPromptLayout(a);
    SamplesPromptLayout(b);
    if SamplesPrompt(a) == SamplesPrompt(b) {
      assert Trim(a) == SamplesPrompt(a)[|SamplesInstructions|..];
    }
  }

  /** The marker written in place of an empty field. */
  const NotAvailable: string := "N/A"

  /** `field.trim() || 'N/A'`: the trimmed field, or the marker when nothing but whitespace was typed. */
  function FieldText(field: string): (r: string)
    ensures r != []
    ensures !AllWhitespace(field) ==> r == Trim(field)
    ensures AllWhitespace(field) ==> r == NotAvailable
  {
    var t := Trim(field);
    if t == [] then NotAvailable else t
  }

  /** Everything the target prompt says before the target details. */
  const TargetInstructions: string :=
    "Based on the following target details, act as a cybersecurity researcher specializing in IoT device security. Generate a comprehensive list of potential default usernames and passwords, and common password patterns or examples typically associated with such devices, or found in publicly known breaches for similar systems.\n" +
    "Focus on patterns and widely known defaults rather than specific live data.\n" +
    "Include common usernames like 'admin', 'user', 'root', 'guest', 'support', 'test'.\n" +
    "Consider common password patterns like 'password', '123456', 'admin123', 'default', 'guest', 'network', 'router', 'iotdevice', 'manufacturername'.\n" +
    "If a manufacturer or model is provided, try to infer common defaults or known vulnerabilities related to that specific entity based on your training data.\n" +
    "Provide the list as a newline-separated list of \"username:password\" pairs or just passwords if no specific username is implied.\n" +
    "\n" +
    "Target Details:\n"

  /** The three detail lines that close the target prompt. */
  function TargetDetails(manufacturer: string, model: string, usernames: string): string
  {
    "Manufacturer: " + manufacturer + "\nModel: " + model + "\nCommon Usernames to consider: " + usernames
  }

  /** The target prompt: fixed instructions, then each field as its trimmed value or `N/A`. */
  function TargetPrompt(deviceManufacturer: string, deviceModel: string, commonUsernames: string): string
  {
    TargetInstructions + TargetDetails(
      FieldText(deviceManufacturer), FieldText(deviceModel), FieldText(commonUsernames))
  }

  /** With only the manufacturer given, the model and usernames lines read `N/A`. */
  lemma TargetPromptOnlyManufacturer(deviceManufacturer: string, deviceModel: string, commonUsernames: string)
    requires !AllWhitespace(deviceManufacturer) && AllWhitespace(deviceModel) && AllWhitespace(commonUsernames)
    ensures TargetPrompt(deviceManufacturer, deviceModel, commonUsernames) ==
      TargetInstructions + TargetDetails(Trim(deviceManufacturer), NotAvailable, NotAvailable)
  {
  }

  /** With only the model given, the manufacturer and usernames lines read `N/A`. */
  lemma TargetPromptOnlyModel(deviceManufacturer: string, deviceModel: string, commonUsernames: string)
    requires AllWhitespace(deviceManufacturer) && !AllWhitespace(deviceModel) && AllWhitespace(commonUsernames)
    ensures TargetPrompt(deviceManufacturer, deviceModel, commonUsernames) ==
      TargetInstructions + TargetDetails(NotAvailable, Trim(deviceModel), NotAvailable)
  {
  }

  /** With only usernames given, the manufacturer and model lines read `N/A`. */
  lemma TargetPromptOnlyUsernames(deviceManufacturer: string, deviceModel: string, commonUsernames: string)
    requires AllWhitespace(deviceManufacturer) && AllWhitespace(deviceModel) && !AllWhitespace(commonUsernames)
    ensures TargetPrompt(deviceManufacturer, deviceModel, commonUsernames) ==
      TargetInstructions + TargetDetails(NotAvailable, NotAvailable, Trim(commonUsernames))
  {
  }

  /**
   * Unlike the other two prompts, the target prompt does not determine its fields: a
   * manufacturer that itself contains a "Model: " line reads like a different split.
   */
  lemma TargetPromptAmbiguous()
    ensures TargetPrompt("a\nModel: b", "c", "") == TargetPrompt("a", "b\nModel: c", "")
  {
    var m1, m2 := "a\nModel: b", "b\nModel: c";
    FieldTextOfTrimmed(m1);
    FieldTextOfTrimmed(m2);
    FieldTextOfTrimmed("a");
    FieldTextOfTrimmed("c");
    TargetDetailsAmbiguous();
  }

  /** A field with non-whitespace ends appears in the prompt as typed. */
  lemma FieldTextOfTrimmed(field: string)
    requires field != [] && !IsJsWhitespace(field[0]) && !IsJsWhitespace(field[|field| - 1])
    ensures FieldText(field) == field
  {
    TrimOfTrimmed(field);
  }

  /** The details lines of the two splits in `TargetPromptAmbiguous` are the same text. */
  lemma TargetDetailsAmbiguous()
    ensures TargetDetails("a\nModel: b", "c", NotAvailable) == TargetDetails("a", "b\nModel: c", NotAvailable)
  {
  }



  /**
   * A field in which the user typed `N/A` (with or without surrounding whitespace) yields
   * the same prompt as an empty field: the prompt cannot tell the two apart.
   */
  lemma TypedNotAvailableLooksEmpty(before: string, after: string, deviceModel: string, commonUsernames: string)
    requires AllWhitespace(before) && AllWhitespace(after)
    ensures TargetPrompt(before + NotAvailable + after, deviceModel, commonUsernames) ==
      TargetPrompt("", deviceModel, commonUsernames)
  {
    FieldTextOfTypedMarker(before, after);
  }

  /** `FieldText` of `N/A` typed between any whitespace is the marker itself. */
  lemma FieldTextOfTypedMarker(before: string, after: string)
    requires AllWhitespace(before) && AllWhitespace(after)
    ensures FieldText(before + NotAvailable + after) == NotAvailable
  {
    var typed := before + NotAvailable + after;
    assert typed == before + (NotAvailable + after);
    TrimStartOfPadded(before, NotAvailable + after);
    TrimEndOfPadded(NotAvailable, after);
  }

  const MixedDescription: string :=
    "a mix of uppercase letters, lowercase letters, numbers, and common special characters (!@#$%^&*)."
  const LettersDescription: string := "only uppercase and lowercase letters."
  const NumbersDescription: string := "only numbers."

  /** The three values of the character-type selector. */
  predicate IsKnownCharacterType(characterType: string)
  {
    characterType == "mixed" || characterType == "characters" || characterType == "numbers"
  }

  /** The phrase for the selected character type; any other value yields the empty phrase. */
  function CharTypeDescription(characterType: string): (r: string)
    ensures characterType == "mixed" ==> r == MixedDescription
    ensures characterType == "characters" ==> r == LettersDescription
    ensures characterType == "numbers" ==> r == NumbersDescription
    ensures r == [] <==> !IsKnownCharacterType(characterType)
  {
    if characterType == "mixed" then MixedDescription
    else if characterType == "characters" then LettersDescription
    else if characterType == "numbers" then NumbersDescription
    else ""
  }

  /** Different known character types get different phrases. */
  lemma CharTypeDescriptionInjective(a: string, b: string)
    requires IsKnownCharacterType(a) && IsKnownCharacterType(b)
    requires CharTypeDescription(a) == CharTypeDescription(b)
    ensures a == b
  {
  }

  const CountLead: string := "Generate a list of "
  const LengthLead: string := " unique, plausible passwords, each exactly "
  const DescriptionLead: string := " characters long.\nEach password should be "
  const LengthClosing: string :=
    "\nAvoid easily guessable patterns like sequential numbers or dictionary words.\n" +
    "Provide the list as a newline-separated list."

  /** Where the password length starts in the length prompt. */
  function LengthOffset(count: nat): nat
  {
    |CountLead| + |Decimal(count)| + |LengthLead|
  }

  /**
   * The length prompt: "Generate a list of <count> unique, plausible passwords, each exactly
   * <length> characters long.", then the character-type phrase, then the fixed closing lines.
   */
  function LengthPrompt(count: nat, length: nat, characterType: string): string
  {
    CountLead + (Decimal(count) + LengthAfterCount(length, characterType))
  }

  /** The length prompt after the count: the length, then the phrase, then the closing lines. */
  function LengthAfterCount(length: nat, characterType: string): string
  {
    LengthLead + (Decimal(length) + DescriptionAndClosing(characterType))
  }

  /** The length prompt after the length: " characters long.", the phrase line and the closing lines. */
  function DescriptionAndClosing(characterType: string): string
  {
    DescriptionLead + (CharTypeDescription(characterType) + LengthClosing)
  }

  /** How the length prompt comes apart: each fixed piece is followed by the next value. */
  lemma LengthPromptLayout(count: nat, length: nat, characterType: string)
    ensures LengthPrompt(count, length, characterType)[|CountLead|..] ==
      Decimal(count) + LengthAfterCount(length, characterType)
    ensures LengthAfterCount(length, characterType)[|LengthLead|..] ==
      Decimal(length) + DescriptionAndClosing(characterType)
    ensures DescriptionAndClosing(characterType)[|DescriptionLead|..] ==
      CharTypeDescription(characterType) + LengthClosing
    ensures LengthAfterCount(length, characterType)[0] == ' '
    ensures DescriptionAndClosing(characterType)[0] == ' '
  {
    DropPrefix(CountLead, Decimal(count) + LengthAfterCount(length, characterType));
    DropPrefix(LengthLead, Decimal(length) + DescriptionAndClosing(characterType));
    DropPrefix(DescriptionLead, CharTypeDescription(characterType) + LengthClosing);
  }

  /** Reading the number right after "Generate a list of " gives back the count. */
  lemma LengthPromptStatesCount(count: nat, length: nat, characterType: string)
    ensures ParseInt(LengthPrompt(count, length, characterType)[|CountLead|..]) == Some(count)
  {
    LengthPromptLayout(count, length, characterType);
    ParseDecimal(count, LengthAfterCount(length, characterType));
  }

  /** Reading the number right after "each exactly " gives back the password length. */
  lemma LengthPromptStatesLength(count: nat, length: nat, characterType: string)
    ensures ParseInt(LengthPrompt(count, length, characterType)[LengthOffset(count)..]) == Some(length)
  {
    LengthPromptLayout(count, length, characterType);
    var p := LengthPrompt(count, length, characterType);
    var tail := LengthAfterCount(length, characterType);
    DropPrefix(Decimal(count), tail);
    assert p[LengthOffset(count)..] == tail[|LengthLead|..];
    ParseDecimal(length, DescriptionAndClosing(characterType));
  }

  /** The length prompt determines the count, the length and the character-type phrase it was built from. */
  lemma LengthPromptInjective(count1: nat, length1: nat, type1: string, count2: nat, length2: nat, type2: string)
    requires LengthPrompt(count1, length1, type1) == LengthPrompt(count2, length2, type2)
    ensures count1 == count2 && length1 == length2
    ensures CharTypeDescription(type1) == CharTypeDescription(type2)
  {
    LengthPromptStatesCount(count1, length1, type1);
    LengthPromptStatesCount(count2, length2, type2);
    LengthPromptLayout(count1, length1, type1);
    LengthPromptLayout(count2, length2, type2);
    var tail1 := LengthAfterCount(length1, type1);
    var tail2 := LengthAfterCount(length2, type2);
    DropPrefix(Decimal(count1), tail1);
    DropPrefix(Decimal(count1), tail2);
    var end1 := DescriptionAndClosing(type1);
    var end2 := DescriptionAndClosing(type2);
    ParseDecimal(length1, end1);
    ParseDecimal(length2, end2);
    DropPrefix(Decimal(length1), end1);
    DropPrefix(Decimal(length1), end2);
    var phrase1 := CharTypeDescription(type1) + LengthClosing;
    var phrase2 := CharTypeDescription(type2) + LengthClosing;
    assert phrase1 == phrase2;
    assert CharTypeDescription(type1) == phrase1[..|phrase1| - |LengthClosing|];
  }

  /** Dropping the first piece of a concatenation leaves the second. */
  lemma DropPrefix(a: string, b: string)
    ensures (a + b)[|a|..] == b
  {
  }
}
