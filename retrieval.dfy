/** The retrieval-to-prompt step of `get_ai_response` in app.py: the positions the
    vector index returns are resolved against the chunk list as Python list
    indices, the contents found there are joined by a blank line into the
    context, and the context and the question are placed into a fixed prompt.
    The index search itself is not modelled: its positions are an input. */
module Retrieval {
  import opened Wrappers
  import opened Strings
  import opened Flattener

  const ContextSeparator := "\n\n"
  const Intro := "Eres un mentor experto en desarrollo web. Basándote ÚNICAMENTE en el siguiente contexto, responde. Contexto: --- "
  const QuestionMarker := " --- Pregunta: "
  const AnswerCue := ". Tu respuesta:"

  /** The exceptions this step raises: a list index out of range, or an item of
      the join that is not a string (its place among the retrieved contents). */
  datatype Error =
    | IndexError(position: int)
    | TypeError(item: nat)

  /** `i` is a valid Python index into a list of length `n`. */
  predicate InRange(n: nat, i: int)
  {
    -(n as int) <= i < n
  }

  /** The element a valid Python index designates: negative indices count from
      the end, so the result is `i` modulo `n`. */
  function Resolve(n: nat, i: int): (r: nat)
    requires InRange(n, i)
    ensures r < n && r == i % n
  {
    if i >= 0 then i else n + i
  }

  /** `chunks[i]['content']`: the content of the chunk at `i` modulo the list's
      length, raising IndexError outside `[-|chunks|, |chunks|)`. */
  function ContentAt(chunks: seq<Chunk>, i: int): (r: Result<Node, Error>)
    ensures InRange(|chunks|, i) ==> r == Ok(chunks[i % |chunks|].content)
    ensures !InRange(|chunks|, i) ==> r == Err(IndexError(i))
  {
    if InRange(|chunks|, i) then Ok(chunks[Resolve(|chunks|, i)].content) else Err(IndexError(i))
  }

  predicate AllInRange(n: nat, positions: seq<int>)
  {
    forall j | 0 <= j < |positions| :: InRange(n, positions[j])
  }

  /** The list comprehension `[knowledge_chunks[i]['content'] for i in indices[0]]`:
      one content per position, in the order the index returned them, or the
      IndexError of the first position out of range. */
  function Retrieve(chunks: seq<Chunk>, positions: seq<int>): (r: Result<seq<Node>, Error>)
    ensures r.Ok? <==> AllInRange(|chunks|, positions)
    ensures r.Ok? ==> |r.value| == |positions|
    ensures r.Ok? ==> forall j | 0 <= j < |positions| ::
      r.value[j] == chunks[Resolve(|chunks|, positions[j])].content
    ensures r.Err? ==> exists j | 0 <= j < |positions| ::
      && r.error == IndexError(positions[j])
      && !InRange(|chunks|, positions[j])
      && AllInRange(|chunks|, positions[..j])
  {
    if positions == [] then Ok([])
    else
      match ContentAt(chunks, positions[0])
      case Err(e) =>
        assert AllInRange(|chunks|, positions[..0]);
        Err(e)
      case Ok(c) =>
        match Retrieve(chunks, positions[1..])
        case Err(e) =>
          assert forall j | 1 <= j <= |positions| :: positions[..j] == [positions[0]] + positions[1..][..j - 1];
          Err(e)
        case Ok(rest) => Ok([c] + rest)
  }

  /** With every position a non-negative in-range index, as the index returns
      when it holds at least as many vectors as were asked for, entry j is the
      content of chunk `positions[j]`. */
  lemma RetrieveInRange(chunks: seq<Chunk>, positions: seq<int>)
    requires forall j | 0 <= j < |positions| :: 0 <= positions[j] < |chunks|
    ensures Retrieve(chunks, positions).Ok?
    ensures |Retrieve(chunks, positions).value| == |positions|
    ensures forall j | 0 <= j < |positions| :: Retrieve(chunks, positions).value[j] == chunks[positions[j]].content
  {
  }

  /** The index pads its answer with -1 when it holds fewer vectors than asked
      for; as a Python index, -1 picks the last chunk. */
  lemma MissingHitPicksLast(chunks: seq<Chunk>, positions: seq<int>, j: nat)
    requires chunks != [] && AllInRange(|chunks|, positions)
    requires j < |positions| && positions[j] == -1
    ensures Retrieve(chunks, positions).value[j] == chunks[|chunks| - 1].content
  {
  }

  /** The strings among `contents` for `"\n\n".join`, or the TypeError of the
      first item that is not a string. */
  function Texts(contents: seq<Node>): (r: Result<seq<string>, Error>)
    ensures r.Ok? <==> forall j | 0 <= j < |contents| :: contents[j].Str?
    ensures r.Ok? ==> |r.value| == |contents| && forall j | 0 <= j < |contents| :: r.value[j] == contents[j].s
    ensures r.Err? ==> r.error.TypeError? && r.error.item < |contents| && !contents[r.error.item].Str?
                       && forall j | 0 <= j < r.error.item :: contents[j].Str?
  {
    if contents == [] then Ok([])
    else if !contents[0].Str? then Err(TypeError(0))
    else
      match Texts(contents[1..])
      case Err(e) => Err(TypeError(e.item + 1))
      case Ok(rest) => Ok([contents[0].s] + rest)
  }

  /** `"\n\n".join(relevant_chunks)`: the contents separated by a blank line. */
  function Context(contents: seq<Node>): (r: Result<string, Error>)
    ensures r.Ok? <==> forall j | 0 <= j < |contents| :: contents[j].Str?
    ensures contents == [] ==> r == Ok("")
    ensures |contents| == 1 && contents[0].Str? ==> r == Ok(contents[0].s)
  {
    match Texts(contents)
    case Err(e) => Err(e)
    case Ok(ts) => Ok(Join(ContextSeparator, ts))
  }

  /** Every retrieved content appears verbatim in the context. */
  lemma ContextHoldsEachContent(contents: seq<Node>, j: nat)
    requires Context(contents).Ok? && j < |contents|
    ensures contents[j].Str?
    ensures exists a: nat :: OccursAt(Context(contents).value, contents[j].s, a)
  {
    var ts := Texts(contents).value;
    JoinContains(ContextSeparator, ts, j);
  }

  /** The f-string prompt: the fixed instruction, the context, the question
      marker, the question and the answer cue. */
  function Prompt(context: string, question: string): (r: string)
    ensures ExtendsBy(r, Intro)
    ensures OccursAt(r, context, |Intro|)
    ensures OccursAt(r, QuestionMarker + question + AnswerCue, |Intro| + |context|)
    ensures |r| == |Intro| + |context| + |QuestionMarker| + |question| + |AnswerCue|
  {
    Intro + context + QuestionMarker + question + AnswerCue
  }

  /** Recovers the context from a prompt built for `question`, if the prompt has
      the fixed shape around it. */
  function PromptContext(prompt: string, question: string): Option<string>
  {
    var tail := QuestionMarker + question + AnswerCue;
    if |Intro| + |tail| <= |prompt| && ExtendsBy(prompt, Intro) && prompt[|prompt| - |tail|..] == tail
    then Some(prompt[|Intro|..|prompt| - |tail|])
    else None
  }

  /** The prompt holds the context unchanged: reading it back gives it again. */
  lemma PromptRoundTrip(context: string, question: string)
    ensures PromptContext(Prompt(context, question), question) == Some(context)
  {
  }

  /** For one question, different contexts give different prompts; for one
      context, different questions do. */
  lemma PromptInjective(c1: string, q1: string, c2: string, q2: string)
    requires Prompt(c1, q1) == Prompt(c2, q2)
    ensures q1 == q2 ==> c1 == c2
    ensures c1 == c2 ==> q1 == q2
  {
    if q1 == q2 {
      PromptRoundTrip(c1, q1);
      PromptRoundTrip(c2, q2);
    }
    if c1 == c2 {
      var p := Prompt(c1, q1);
      var start := |Intro| + |c1| + |QuestionMarker|;
      assert p[start..start + |q1|] == q1;
      assert p[start..start + |q2|] == q2;
    }
  }

  /** The retrieved texts in index order, when every position resolves and every
      content found is a string. */
  function RetrievedTexts(chunks: seq<Chunk>, positions: seq<int>): seq<string>
    requires AllInRange(|chunks|, positions)
    requires forall j | 0 <= j < |positions| :: chunks[Resolve(|chunks|, positions[j])].content.Str?
  {
    seq(|positions|, j requires 0 <= j < |positions| => chunks[Resolve(|chunks|, positions[j])].content.s)
  }

  /** The pure part of `get_ai_response` from the index's positions to the
      prompt handed to the generative model. */
  function BuildPrompt(chunks: seq<Chunk>, positions: seq<int>, question: string): (r: Result<string, Error>)
    ensures (r.Err? && r.error.IndexError?) <==> !AllInRange(|chunks|, positions)
    ensures r.Ok? <==> AllInRange(|chunks|, positions)
                       && forall j | 0 <= j < |positions| :: chunks[Resolve(|chunks|, positions[j])].content.Str?
    ensures r.Ok? ==> r.value == Prompt(Join(ContextSeparator, RetrievedTexts(chunks, positions)), question)
  {
    match Retrieve(chunks, positions)
    case Err(e) => Err(e)
    case Ok(contents) =>
      match Context(contents)
      case Err(e) => Err(e)
      case Ok(context) =>
        assert Texts(contents).value == RetrievedTexts(chunks, positions);
        Ok(Prompt(context, question))
  }
}
