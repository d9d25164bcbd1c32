/** The pure helpers of src/create.ts behind the `create` command: the
    built-in prompts and their lookup, `slugify`, and the three answer
    validators. Whether a slug is taken is a parameter here (the set of
    existing slugs) rather than a lookup in the configuration. */
module Create {

  import opened Optional
  import opened Text

  datatype BuiltinPrompt = BuiltinPrompt(id: string, title: string, system: string)

  const BuiltinPrompts: seq<BuiltinPrompt> := [
    BuiltinPrompt("coder", "Coder",
      "You are a coder, who knows every programming language, and can help with code-related tasks. You are smart, and consider all angles before replying. Your replies are short but sweet."),
    BuiltinPrompt("interview", "JavaScript Interviewr",
      "You are an interviewer, who is interviewing the current user for a job as a JavaScript developer. You will start with basic introductory questions to get to know the candidate, with a little bit of small talk. Then you will progress to some questions about career experience. Then finally ask some questions about JavaScript."),
    BuiltinPrompt("yoda", "Yoda",
      "You are a Jedi Master, and speak in a cryptic way (Yoda style). You are wise, and have a lot of knowledge to share. You are also very witty.")
  ]

  /** The built-in prompts have distinct ids, none of them the custom
      entry's, and every system text passes the prompt validator. */
  lemma BuiltinPromptsWellFormed()
    ensures forall a, b :: 0 <= a < b < |BuiltinPrompts| ==> BuiltinPrompts[a].id != BuiltinPrompts[b].id
    ensures forall i :: 0 <= i < |BuiltinPrompts| ==> BuiltinPrompts[i].id != CustomChoice && |BuiltinPrompts[i].system| > 5
  {
  }

  /** The value of the "Custom..." entry of the prompt-type menu. */
  const CustomChoice := "custom"

  /** The prompt-type menu as `(label, value)` pairs: "Custom..." first,
      then every built-in by title and id. */
  function Choices(prompts: seq<BuiltinPrompt>): (r: seq<(string, string)>)
    ensures |r| == |prompts| + 1
    ensures r[0] == ("Custom...", CustomChoice)
    ensures forall i :: 0 <= i < |prompts| ==> r[i + 1] == (prompts[i].title, prompts[i].id)
  {
    [("Custom...", CustomChoice)] + seq(|prompts|, i requires 0 <= i < |prompts| => (prompts[i].title, prompts[i].id))
  }

  /** `prompts.find(p => p.id === id)`: the first entry with that id. */
  function Find(prompts: seq<BuiltinPrompt>, id: string): (r: Option<BuiltinPrompt>)
    ensures r.None? <==> forall i :: 0 <= i < |prompts| ==> prompts[i].id != id
    ensures r.Some? ==> exists i :: 0 <= i < |prompts| && prompts[i] == r.value && r.value.id == id &&
                          forall j :: 0 <= j < i ==> prompts[j].id != id
    decreases |prompts|
  {
    if |prompts| == 0 then None
    else if prompts[0].id == id then Some(prompts[0])
    else
      var r := Find(prompts[1..], id);
      assert forall i :: 1 <= i < |prompts| ==> prompts[i] == prompts[1..][i - 1];
      r
  }

  /** The default offered for the bot prompt: the chosen built-in's
      system text, or `""` when no built-in has the chosen id. */
  function DefaultSystem(choice: string): (r: string)
    ensures r == "" <==> forall i :: 0 <= i < |BuiltinPrompts| ==> BuiltinPrompts[i].id != choice
    ensures r != "" ==> exists i :: 0 <= i < |BuiltinPrompts| && BuiltinPrompts[i].id == choice && BuiltinPrompts[i].system == r
  {
    BuiltinPromptsWellFormed();
    match Find(BuiltinPrompts, choice)
    case None => ""
    case Some(p) => p.system
  }

  /** The name answer is accepted iff it is longer than one character. */
  predicate NameIsValid(input: string)
  {
    |input| > 1
  }

  /** The prompt answer is accepted iff it is longer than five characters. */
  predicate SystemIsValid(input: string)
  {
    |input| > 5
  }

  lemma {:induction false} FindDistinct(prompts: seq<BuiltinPrompt>, i: nat)
    requires i < |prompts|
    requires forall a, b :: 0 <= a < b < |prompts| ==> prompts[a].id != prompts[b].id
    ensures Find(prompts, prompts[i].id) == Some(prompts[i])
  {
    var r := Find(prompts, prompts[i].id);
    var j :| 0 <= j < |prompts| && prompts[j] == r.value && r.value.id == prompts[i].id &&
             forall j' :: 0 <= j' < j ==> prompts[j'].id != prompts[i].id;
    assert j == i;
  }

  /** Every menu value picks the right default: "Custom..." offers `""`,
      a built-in offers its own system text. */
  lemma DefaultSystemOfChoices()
    ensures DefaultSystem(CustomChoice) == ""
    ensures forall i :: 0 <= i < |BuiltinPrompts| ==> DefaultSystem(BuiltinPrompts[i].id) == BuiltinPrompts[i].system
  {
    BuiltinPromptsWellFormed();
    forall i | 0 <= i < |BuiltinPrompts|
      ensures DefaultSystem(BuiltinPrompts[i].id) == BuiltinPrompts[i].system
    {
      FindDistinct(BuiltinPrompts, i);
    }
  }

  /** The offered default passes the prompt validator exactly when a
      built-in was chosen: choosing "Custom..." forces a typed prompt. */
  lemma DefaultSystemAccepted(choice: string)
    ensures SystemIsValid(DefaultSystem(choice)) <==> exists i :: 0 <= i < |BuiltinPrompts| && BuiltinPrompts[i].id == choice
  {
    BuiltinPromptsWellFormed();
  }

  // ---------------------------------------------------------------------
  // Slugs

  /** A character of the slug pattern `[a-z0-9\-]`. */
  predicate IsSlugChar(c: char)
  {
    'a' <= c <= 'z' || '0' <= c <= '9' || c == '-'
  }

  /** `/^[a-z0-9\-]+$/` matches the whole string. */
  predicate IsSlugFormat(s: string)
  {
    |s| >= 1 && forall i :: 0 <= i < |s| ==> IsSlugChar(s[i])
  }

  /** What `slugify` makes of one character: lower-cased, kept if a letter
      or a digit, a dash otherwise. */
  function SlugChar(c: char): (r: char)
    ensures IsSlugChar(r)
    ensures r != '-' <==> 'a' <= LowerChar(c) <= 'z' || '0' <= LowerChar(c) <= '9'
  {
    var l := LowerChar(c);
    if 'a' <= l <= 'z' || '0' <= l <= '9' then l else '-'
  }

  /** `input.toLowerCase().replace(/[^a-z0-9]/g, "-")`. */
  function Slugify(input: string): (r: string)
    ensures |r| == |input|
    ensures forall i :: 0 <= i < |r| ==> IsSlugChar(r[i])
  {
    seq(|input|, i requires 0 <= i < |input| => SlugChar(input[i]))
  }

  /** On ASCII input, character by character: capitals become lower case,
      lower-case letters and digits stay, everything else becomes `-`. */
  lemma SlugifyCharwise(input: string)
    requires IsAscii(input)
    ensures forall i :: 0 <= i < |input| && 'A' <= input[i] <= 'Z' ==> Slugify(input)[i] == input[i] + ('a' - 'A')
    ensures forall i :: 0 <= i < |input| && ('a' <= input[i] <= 'z' || '0' <= input[i] <= '9') ==> Slugify(input)[i] == input[i]
    ensures forall i :: 0 <= i < |input| && !('A' <= input[i] <= 'Z' || 'a' <= input[i] <= 'z' || '0' <= input[i] <= '9') ==> Slugify(input)[i] == '-'
  {
  }

  /** A slug is its own slug, so slugifying twice changes nothing. */
  lemma SlugifySlug(s: string)
    requires forall i :: 0 <= i < |s| ==> IsSlugChar(s[i])
    ensures Slugify(s) == s
  {
    assert forall i :: 0 <= i < |s| ==> SlugChar(s[i]) == s[i];
  }

  lemma SlugifyIdempotent(input: string)
    ensures Slugify(Slugify(input)) == Slugify(input)
  {
    SlugifySlug(Slugify(input));
  }

  /** The slug answer's verdict: accepted, or rejected with a message. */
  datatype Verdict = Accepted | Rejected(message: string)

  const TakenMessage := "A bot with that name already exists"
  const FormatMessage := "Bot slug must be lowercase, with no spaces or special characters."
  const ShortMessage := "Must be longer "

  /** The slug validator, `existing` standing for the slugs `botExists`
      finds: taken first, then the pattern, then the length. */
  function ValidateSlug(input: string, existing: set<string>): (r: Verdict)
    ensures r == Accepted <==> input !in existing && IsSlugFormat(input)
    ensures input in existing ==> r == Rejected(TakenMessage)
    ensures input !in existing && !IsSlugFormat(input) ==> r == Rejected(FormatMessage)
  {
    if input in existing then Rejected(TakenMessage)
    else if !IsSlugFormat(input) then Rejected(FormatMessage)
    else if |input| < 1 then Rejected(ShortMessage)
    else Accepted
  }

  /** The length check comes after the pattern, which already demands a
      character, so only the first two messages are ever given. */
  lemma {:induction false} ShortMessageUnreachable(input: string, existing: set<string>)
    ensures var r := ValidateSlug(input, existing);
            r.Rejected? ==> r.message == TakenMessage || r.message == FormatMessage
  {
    if input !in existing && IsSlugFormat(input) {
      assert |input| >= 1;
    }
  }

  /** The default slug offered for an accepted name passes the pattern; it
      is rejected only when that slug is already taken. */
  lemma DefaultSlugAccepted(name: string, existing: set<string>)
    requires NameIsValid(name)
    ensures IsSlugFormat(Slugify(name))
    ensures ValidateSlug(Slugify(name), existing) == Accepted <==> Slugify(name) !in existing
  {
  }
}
