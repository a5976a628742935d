/** Prompt building: the system prompt, the two-line reply instruction that
    embeds the user's message and the next question, and the table of
    purposes that can be added to a prompt's list of purposes. */
module Prompts {
  import opened Wrappers
  import opened Text

  /** The key of the prompt dictionary that holds the list of purposes. */
  const KEY_PROPOSITOS := "propositos"

  /** Keys of the purpose table. */
  const PROP_INICIALIZAR_CONVERSACION := "inicializar_conversacion"
  const PROP_RESPONDER_AL_USUARIO := "responder_al_usuario"
  const PROP_REALIZAR_PREGUNTA := "realizar_pregunta"

  /** The purpose table: key to description. */
  const PROPOSITOS_DICT: map<string, string> := map[
    PROP_INICIALIZAR_CONVERSACION := "Inicias la conversación de manera cálida y accesible, estableciendo confianza con el usuario.",
    PROP_RESPONDER_AL_USUARIO := "Respondes de manera natural y auténtica, asegurándote de reconocer el mensaje del usuario con empatía.",
    PROP_REALIZAR_PREGUNTA := "Formulas preguntas de manera fluida y relevante para que la conversación siga desarrollándose de manera orgánica."
  ]

  /** The personality text of the system prompt, with its line breaks and
      the indentation of its continuation lines. */
  const PERSONALIDAD := "Eres una persona carismática y con gran habilidad para conectar con los demás.\n    Inicias la conversación con un tono amigable y relajado, haciendo que el usuario se sienta escuchado y cómodo desde el primer momento.\n    Aprovecha el contexto para hacer la charla interesante, con un toque de curiosidad y empatía.\n    Mantén la interacción dinámica, con respuestas que inviten a seguir conversando sin sentirse mecánicas o estructuradas."

  /** The table has exactly the three purpose keys. */
  lemma PropositosHasThreeKeys()
    ensures PROPOSITOS_DICT.Keys == {PROP_INICIALIZAR_CONVERSACION, PROP_RESPONDER_AL_USUARIO, PROP_REALIZAR_PREGUNTA}
    ensures |PROPOSITOS_DICT| == 3
  {
  }

  /** `build_system_prompt`: the personality text followed by a blank line;
      it takes no input, so every call gives the same text. */
  function BuildSystemPrompt(): (prompt: string)
    ensures |prompt| == |PERSONALIDAD| + 2
    ensures prompt[..|PERSONALIDAD|] == PERSONALIDAD
    ensures prompt[|PERSONALIDAD|..] == "\n\n"
  {
    PERSONALIDAD + "\n\n"
  }

  /** The fixed text around the quoted user message and the quoted question
      (written in pieces so that the verifier can look inside each). */
  const REPLY_OPEN := "Responde de manera auténtica " + "a lo que dice el usuario: \""
  const REPLY_CLOSE := "\", asegurándote de reconocer " + "su mensaje de forma natural."
  const QUESTION_OPEN := "Luego, guía la conversación " + "sin que se sienta forzada, " + "integrando la pregunta: \""
  const QUESTION_CLOSE := "\" de manera sutil y fluida."

  /** The first purpose: reply to what the user said. */
  function ReplyPurpose(userPrompt: string): string
  {
    REPLY_OPEN + userPrompt + REPLY_CLOSE
  }

  /** The second purpose: bring in the question. */
  function QuestionPurpose(question: string): string
  {
    QUESTION_OPEN + question + QUESTION_CLOSE
  }

  /** `build_prompt`: the two purposes joined by a newline. The second
      `return` of the source is unreachable and is not part of the model. */
  function BuildPrompt(userPrompt: string, question: string): (prompt: string)
    ensures |prompt| == |ReplyPurpose(userPrompt)| + 1 + |QuestionPurpose(question)|
    ensures ReplyPurpose(userPrompt) <= prompt
    ensures prompt[|ReplyPurpose(userPrompt)|] == '\n'
    ensures prompt[|ReplyPurpose(userPrompt)| + 1..] == QuestionPurpose(question)
  {
    var parts := [ReplyPurpose(userPrompt), QuestionPurpose(question)];
    assert parts[1..] == [QuestionPurpose(question)];
    assert JoinLines(parts[1..]) == QuestionPurpose(question);
    JoinLines(parts)
  }

  /** Facts about the fixed texts: none holds a newline, each opening text
      ends with a double quote and each closing text starts with one. */
  lemma ReplyOpenFacts()
    ensures '\n' !in REPLY_OPEN && REPLY_OPEN[|REPLY_OPEN| - 1] == '"'
  {
  }

  lemma ReplyCloseFacts()
    ensures '\n' !in REPLY_CLOSE && REPLY_CLOSE[0] == '"'
  {
  }

  lemma QuestionOpenFacts()
    ensures '\n' !in QUESTION_OPEN && QUESTION_OPEN[|QUESTION_OPEN| - 1] == '"'
  {
  }

  lemma QuestionCloseFacts()
    ensures '\n' !in QUESTION_CLOSE && QUESTION_CLOSE[0] == '"'
  {
  }

  /** A concatenation of newline-free texts is newline-free. */
  lemma NoNewlineConcat(a: string, b: string, c: string)
    requires '\n' !in a && '\n' !in b && '\n' !in c
    ensures '\n' !in a + b + c
  {
    assert forall i :: 0 <= i < |a + b + c| ==>
      (a + b + c)[i] == if i < |a| then a[i] else if i < |a| + |b| then b[i - |a|] else c[i - |a| - |b|];
  }

  /** The built prompt is exactly two lines, the reply purpose then the
      question purpose, when neither input holds a newline. */
  lemma {:induction false} BuildPromptTwoLines(userPrompt: string, question: string)
    requires '\n' !in userPrompt && '\n' !in question
    ensures SplitLines(BuildPrompt(userPrompt, question)) == [ReplyPurpose(userPrompt), QuestionPurpose(question)]
  {
    ReplyOpenFacts();
    ReplyCloseFacts();
    QuestionOpenFacts();
    QuestionCloseFacts();
    NoNewlineConcat(REPLY_OPEN, userPrompt, REPLY_CLOSE);
    NoNewlineConcat(QUESTION_OPEN, question, QUESTION_CLOSE);
    SplitJoin([ReplyPurpose(userPrompt), QuestionPurpose(question)]);
  }

  /** The position of the first newline of `s`. */
  function FirstNewline(s: string): (r: Option<nat>)
    ensures r.Some? ==> r.value < |s| && s[r.value] == '\n' && '\n' !in s[..r.value]
    ensures r.None? ==> '\n' !in s
  {
    if |s| == 0 then None
    else if s[0] == '\n' then Some(0)
    else match FirstNewline(s[1..])
      case None => None
      case Some(k) =>
        assert s[..k + 1] == [s[0]] + s[1..][..k];
        Some(k + 1)
  }

  /** The text between `open` and `close` when `line` is exactly
      `open + text + close`. */
  function Between(line: string, open: string, close: string): (r: Option<string>)
    ensures r.Some? ==> line == open + r.value + close
  {
    if |line| >= |open| + |close| && line[..|open|] == open && line[|line| - |close|..] == close
    then
      var text := line[|open|..|line| - |close|];
      assert line == line[..|open|] + text + line[|line| - |close|..];
      Some(text)
    else None
  }

  /** Read a prompt back: the user message quoted on the first line and the
      question quoted on the rest. */
  function ParsePrompt(prompt: string): Option<(string, string)>
  {
    match FirstNewline(prompt)
    case None => None
    case Some(i) =>
      match (Between(prompt[..i], REPLY_OPEN, REPLY_CLOSE), Between(prompt[i + 1..], QUESTION_OPEN, QUESTION_CLOSE))
      case (Some(u), Some(q)) => Some((u, q))
      case _ => None
  }

  /** `open + text + close` gives back `text` between `open` and `close`. */
  lemma BetweenWraps(open: string, text: string, close: string)
    ensures Between(open + text + close, open, close) == Some(text)
  {
    var line := open + text + close;
    assert line[..|open|] == open;
    assert line[|line| - |close|..] == close;
    assert line[|open|..|line| - |close|] == text;
  }

  /** The user message and the question can be read back from the built
      prompt: the first is quoted on line one, the second on line two. */
  lemma {:induction false} BuildPromptRoundTrip(userPrompt: string, question: string)
    requires '\n' !in userPrompt
    ensures ParsePrompt(BuildPrompt(userPrompt, question)) == Some((userPrompt, question))
  {
    ReplyOpenFacts();
    ReplyCloseFacts();
    var first, second := ReplyPurpose(userPrompt), QuestionPurpose(question);
    NoNewlineConcat(REPLY_OPEN, userPrompt, REPLY_CLOSE);
    var prompt := BuildPrompt(userPrompt, question);
    assert [first, second][1..] == [second];
    assert JoinLines([second]) == second;
    assert prompt == first + "\n" + JoinLines([first, second][1..]);
    var i := FirstNewline(prompt);
    assert prompt[|first|] == '\n';
    assert prompt[..|first|] == first;
    assert i == Some(|first|);
    assert prompt[|first| + 1..] == second;
    BetweenWraps(REPLY_OPEN, userPrompt, REPLY_CLOSE);
    BetweenWraps(QUESTION_OPEN, question, QUESTION_CLOSE);
  }

  /** The requested keys that the purpose table knows, in request order. */
  function KnownKeys(keys: seq<string>): (r: seq<string>)
    ensures |r| <= |keys|
    ensures forall i :: 0 <= i < |r| ==> r[i] in PROPOSITOS_DICT && r[i] in keys
  {
    if |keys| == 0 then []
    else
      var front := KnownKeys(keys[..|keys| - 1]);
      var last := keys[|keys| - 1];
      assert forall k :: k in keys[..|keys| - 1] ==> k in keys;
      if last in PROPOSITOS_DICT then front + [last] else front
  }

  /** `[PROPOSITOS_DICT[key] for key in keys if key in PROPOSITOS_DICT]`. */
  function SelectPurposes(keys: seq<string>): (r: seq<string>)
    ensures |r| <= |keys|
    ensures forall i :: 0 <= i < |r| ==> r[i] in PROPOSITOS_DICT.Values
  {
    if |keys| == 0 then []
    else
      var last := keys[|keys| - 1];
      SelectPurposes(keys[..|keys| - 1]) + (if last in PROPOSITOS_DICT then [PROPOSITOS_DICT[last]] else [])
  }

  /** The selection holds one description per known requested key, the
      i-th being that of the i-th known key: unknown keys are skipped and a
      key requested twice gives its description twice. */
  lemma {:induction false} SelectMapsKnownKeys(keys: seq<string>)
    ensures |SelectPurposes(keys)| == |KnownKeys(keys)|
    ensures forall i :: 0 <= i < |KnownKeys(keys)| ==>
      SelectPurposes(keys)[i] == PROPOSITOS_DICT[KnownKeys(keys)[i]]
  {
    if |keys| > 0 {
      SelectMapsKnownKeys(keys[..|keys| - 1]);
    }
  }

  /** Keeping the known keys of two requests in a row is keeping those of
      each in turn: every known requested key is kept, in request order. */
  lemma {:induction false} KnownKeysConcat(a: seq<string>, b: seq<string>)
    ensures KnownKeys(a + b) == KnownKeys(a) + KnownKeys(b)
    decreases |b|
  {
    if |b| == 0 {
      assert a + b == a;
    } else {
      var b' := b[..|b| - 1];
      assert (a + b)[..|a + b| - 1] == a + b';
      assert (a + b)[|a + b| - 1] == b[|b| - 1];
      KnownKeysConcat(a, b');
    }
  }

  /** A requested key is kept exactly when the table has it. */
  lemma KnownKeyKept(keys: seq<string>, key: string)
    ensures key in PROPOSITOS_DICT ==> KnownKeys(keys + [key]) == KnownKeys(keys) + [key]
    ensures key !in PROPOSITOS_DICT ==> KnownKeys(keys + [key]) == KnownKeys(keys)
  {
    assert (keys + [key])[..|keys|] == keys;
  }

  /** Selecting for two requests in a row is selecting for each in turn. */
  lemma {:induction false} SelectConcat(a: seq<string>, b: seq<string>)
    ensures SelectPurposes(a + b) == SelectPurposes(a) + SelectPurposes(b)
    decreases |b|
  {
    if |b| == 0 {
      assert a + b == a;
    } else {
      var b' := b[..|b| - 1];
      assert (a + b)[..|a + b| - 1] == a + b';
      assert (a + b)[|a + b| - 1] == b[|b| - 1];
      SelectConcat(a, b');
    }
  }

  /** Every known requested key contributes its description. */
  lemma {:induction false} SelectCoversKnownKey(keys: seq<string>, i: nat)
    requires i < |keys| && keys[i] in PROPOSITOS_DICT
    ensures PROPOSITOS_DICT[keys[i]] in SelectPurposes(keys)
  {
    SelectConcat(keys[..i + 1], keys[i + 1..]);
    assert keys[..i + 1] + keys[i + 1..] == keys;
    assert keys[..i + 1][..i] == keys[..i];
  }

  /** A list of purposes, shared by reference with the dictionary holding it. */
  class PurposeList {
    var items: seq<string>

    constructor (items: seq<string>)
      ensures this.items == items
    {
      this.items := items;
    }
  }

  /** A prompt dictionary; `purposes` is the list under "propositos", None
      when that key is absent. */
  class PromptJson {
    var purposes: Option<PurposeList>

    constructor (purposes: Option<PurposeList>)
      ensures this.purposes == purposes
    {
      this.purposes := purposes;
    }
  }

  /** `add_propositos`: extend the prompt's purpose list in place with the
      descriptions of the known requested keys, in request order, and
      return the same dictionary. Without a "propositos" key it raises
      KeyError and changes nothing. */
  method AddPropositos(existingPrompt: PromptJson, propositosKeys: seq<string>) returns (r: Result<PromptJson>)
    modifies if existingPrompt.purposes.Some? then {existingPrompt.purposes.value} else {}
    ensures r.KeyError? <==> existingPrompt.purposes.None?
    ensures r.KeyError? ==> r.key == KEY_PROPOSITOS
    ensures r.Ok? ==> r.value == existingPrompt
    ensures r.Ok? ==>
      existingPrompt.purposes.value.items == old(existingPrompt.purposes.value.items) + SelectPurposes(propositosKeys)
  {
    var nuevosPropositos := SelectPurposes(propositosKeys);
    if existingPrompt.purposes.None? {
      return KeyError(KEY_PROPOSITOS);
    }
    var purposes := existingPrompt.purposes.value;
    purposes.items := purposes.items + nuevosPropositos;
    return Ok(existingPrompt);
  }
}
