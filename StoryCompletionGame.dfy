/**
 * The story-completion game: a start screen showing a randomly chosen
 * story starter, a writing screen, and a reflection screen that waits for
 * the analysis of the finished story. `Math.random` is a parameter.
 */
module StoryCompletionGame {
  import opened Options

  const StoryPrompts: seq<string> := [
    "The small boat drifted on a sea of stars. In the distance, a single lighthouse blinked. As the boat got closer, the light wasn't from a lamp, but from...",
    "Deep within the quiet library, I found a book with blank pages. As I touched the first page, words began to appear, telling a story only I could read. It started with...",
    "The old robot sat alone in the junkyard, watching the world go by. One day, a small bird landed on its shoulder and chirped a strange tune. The robot began to..."
  ]

  /** The analysis returned for a finished story. */
  datatype StoryAnalysis = StoryAnalysis(analysis: string, identifiedFeeling: string)

  /** The input of the analysis request. */
  datatype StoryRequest = StoryRequest(storyPrompt: string, userCompletion: string)

  /** `Math.floor(random * storyPrompts.length)` for a draw in [0, 1): always a valid index. */
  function PromptIndex(random: real): (k: nat)
    requires 0.0 <= random < 1.0
    ensures k < |StoryPrompts|
    ensures k as real <= random * |StoryPrompts| as real < k as real + 1.0
  {
    (random * |StoryPrompts| as real).Floor
  }

  /** Every starter can be drawn: the draw k/3 picks starter k. */
  lemma EveryPromptDrawable(k: nat)
    requires k < |StoryPrompts|
    ensures PromptIndex(k as real / |StoryPrompts| as real) == k
  {
    var r := k as real / |StoryPrompts| as real;
    assert r * |StoryPrompts| as real == k as real;
  }

  /** What the game renders for each step; any other step renders nothing. */
  datatype Screen =
    | StartScreen(prompt: string)
    | WritingScreen(prompt: string, text: string, submitEnabled: bool)
    | AnalysisScreen(spinner: bool, shown: Option<StoryAnalysis>)
    | NoScreen

  /**
   * The render: the start screen with the starter, the writing screen with
   * the submit button enabled only for a non-empty text and no request in
   * flight, and the reflection screen with a spinner while the request is in
   * flight and the analysis, when there is one, after it.
   */
  function View(step: nat, prompt: string, completion: string, analysis: Option<StoryAnalysis>, isPending: bool): (s: Screen)
    ensures s.NoScreen? <==> !(1 <= step <= 3)
    ensures s.StartScreen? <==> step == 1
    ensures s.WritingScreen? <==> step == 2
    ensures s.AnalysisScreen? <==> step == 3
    ensures s.StartScreen? || s.WritingScreen? ==> s.prompt == prompt
    ensures s.WritingScreen? ==> s.text == completion
    ensures s.AnalysisScreen? && s.shown.Some? ==> s.shown == analysis
    ensures s.WritingScreen? ==> (s.submitEnabled <==> completion != "" && !isPending)
    ensures s.AnalysisScreen? ==> (s.spinner <==> isPending) && (s.shown.Some? <==> !isPending && analysis.Some?)
  {
    if step == 1 then StartScreen(prompt)
    else if step == 2 then WritingScreen(prompt, completion, !(isPending || completion == ""))
    else if step == 3 then AnalysisScreen(isPending, if isPending then None else analysis)
    else NoScreen
  }

  class StoryCompletion {
    var step: nat
    const storyPrompt: string
    var userCompletion: string
    var analysisResponse: Option<StoryAnalysis>
    var isPending: bool

    /** The step is one of the three screens and the starter is one of the story starters. */
    ghost predicate Valid()
      reads this
    {
      1 <= step <= 3 && storyPrompt in StoryPrompts
    }

    /** A new game on the start screen, with the starter drawn once for the game's lifetime. */
    constructor (random: real)
      requires 0.0 <= random < 1.0
      ensures Valid()
      ensures step == 1 && storyPrompt == StoryPrompts[PromptIndex(random)]
      ensures userCompletion == "" && analysisResponse == None && !isPending
    {
      step := 1;
      storyPrompt := StoryPrompts[PromptIndex(random)];
      userCompletion := "";
      analysisResponse := None;
      isPending := false;
    }

    /** "Begin Writing": on to the writing screen. */
    method BeginWriting()
      requires Valid()
      modifies this
      ensures Valid() && step == 2
      ensures userCompletion == old(userCompletion) && analysisResponse == old(analysisResponse) && isPending == old(isPending)
    {
      step := 2;
    }

    /** The text area's change handler. */
    method SetCompletion(text: string)
      modifies this
      ensures userCompletion == text
      ensures step == old(step) && analysisResponse == old(analysisResponse) && isPending == old(isPending)
    {
      userCompletion := text;
    }

    /**
     * `handleSubmit`: ignored for an empty text; otherwise moves to the
     * reflection screen and starts the analysis request for the starter and
     * the text.
     */
    method HandleSubmit() returns (request: Option<StoryRequest>)
      requires Valid()
      modifies this
      ensures Valid()
      ensures request.Some? <==> old(userCompletion) != ""
      ensures request.Some? ==> request.value == StoryRequest(storyPrompt, userCompletion) && step == 3 && isPending
      ensures request.None? ==> step == old(step) && isPending == old(isPending)
      ensures userCompletion == old(userCompletion) && analysisResponse == old(analysisResponse)
    {
      if userCompletion == "" {
        return None;
      }
      step := 3;
      isPending := true;
      request := Some(StoryRequest(storyPrompt, userCompletion));
    }

    /** The analysis request completes and its result is stored. */
    method ReceiveAnalysis(response: Option<StoryAnalysis>)
      requires isPending
      modifies this
      ensures analysisResponse == response && !isPending
      ensures step == old(step) && userCompletion == old(userCompletion)
    {
      analysisResponse := response;
      isPending := false;
    }

    /** `resetGame`: back to the start screen with no text and no analysis; the starter stays the same. */
    method ResetGame()
      requires Valid()
      modifies this
      ensures Valid()
      ensures step == 1 && userCompletion == "" && analysisResponse == None
      ensures isPending == old(isPending)
    {
      step := 1;
      userCompletion := "";
      analysisResponse := None;
    }
  }

  /**
   * One round: begin, write, submit, receive. A non-empty text reaches the
   * reflection screen with a spinner, sends exactly the drawn starter and
   * the text, and shows the analysis once it arrives; an empty text stays
   * on the writing screen with the button disabled and sends nothing.
   */
  method PlayRound(random: real, text: string, response: StoryAnalysis) returns (request: Option<StoryRequest>, waiting: Screen, done: Screen)
    requires 0.0 <= random < 1.0
    ensures text != "" ==> request == Some(StoryRequest(StoryPrompts[PromptIndex(random)], text))
    ensures text != "" ==> waiting == AnalysisScreen(true, None) && done == AnalysisScreen(false, Some(response))
    ensures text == "" ==> request == None && waiting == WritingScreen(StoryPrompts[PromptIndex(random)], "", false)
  {
    var g := new StoryCompletion(random);
    g.BeginWriting();
    g.SetCompletion(text);
    request := g.HandleSubmit();
    waiting := View(g.step, g.storyPrompt, g.userCompletion, g.analysisResponse, g.isPending);
    done := waiting;
    if request.Some? {
      g.ReceiveAnalysis(Some(response));
      done := View(g.step, g.storyPrompt, g.userCompletion, g.analysisResponse, g.isPending);
    }
  }
}
