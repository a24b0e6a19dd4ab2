/**
 * The branching-story game: a fixed story of four scenarios; each choice
 * is recorded and moves to the next scenario, and the choice that leads to
 * the end node sends the recorded choices off for analysis.
 */
module ChooseYourFeelingsGame {
  import opened Options

  datatype ChoiceOption = ChoiceOption(text: string, nextId: int)
  datatype Scenario = Scenario(id: int, scenario: string, options: seq<ChoiceOption>)

  /** One recorded choice: the scenario's text and the chosen option's text. */
  datatype Choice = Choice(scenario: string, choice: string)

  /** The analysis returned for a finished story. */
  datatype Analysis = Analysis(tendency: string, analysis: string)

  const EndNode: int := 5
  const StartId: int := 1

  const Story: seq<Scenario> := [
    Scenario(1, "A friend cancels plans with you at the last minute.", [
      ChoiceOption("Feel hurt and a little disappointed.", 2),
      ChoiceOption("Say \"I understand, no worries!\"", 3),
      ChoiceOption("Get angry and text them back an annoyed message.", 4)]),
    Scenario(2, "You chose to feel hurt. Your friend replies, \"I'm so sorry, I feel terrible!\" How do you respond?", [
      ChoiceOption("\"It's okay, don't worry about it.\"", 5),
      ChoiceOption("\"I was really looking forward to it, I feel let down.\"", 5)]),
    Scenario(3, "You chose to be understanding. Later, you see them on social media having fun with other people. What do you think?", [
      ChoiceOption("Feel a pang of jealousy and exclusion.", 5),
      ChoiceOption("Decide to talk to them about it later.", 5)]),
    Scenario(4, "You chose to get angry. They don't reply to your message for hours. What do you do?", [
      ChoiceOption("Send another angry message.", 5),
      ChoiceOption("Take some deep breaths and try to calm down.", 5)])
  ]

  /** `Array.prototype.find` by id: the first scenario with that id, if any. */
  function Find(story: seq<Scenario>, id: int): (r: Option<Scenario>)
    ensures r.Some? ==> r.value in story && r.value.id == id
    ensures r.None? <==> forall s :: s in story ==> s.id != id
  {
    if story == [] then None
    else if story[0].id == id then Some(story[0])
    else Find(story[1..], id)
  }

  /** The lookup on the story resolves exactly the ids 1 to 4, each to its own scenario. */
  lemma FindInStory(id: int)
    ensures Find(Story, id) == (if 1 <= id <= 4 then Some(Story[id - 1]) else None)
  {
    assert Story[0].id == 1 && Story[1].id == 2 && Story[2].id == 3 && Story[3].id == 4;
    if id != 1 {
      assert Story[1..][1..][1..][1..] == [];
    }
  }

  /** The end node is not a scenario of the story. */
  lemma EndNodeNotInStory()
    ensures Find(Story, EndNode).None?
  {
    FindInStory(EndNode);
  }

  /** The number of choices made on the way from the start to a node. */
  function Depth(id: int): nat
  {
    if id == StartId then 0 else if id == EndNode then 2 else 1
  }

  /**
   * The story's shape: the start branches to 2, 3 and 4, and every option
   * of those leads to the end node, so every path ends after two choices.
   */
  lemma StoryShape(id: int, option: ChoiceOption)
    requires Find(Story, id).Some? && option in Find(Story, id).value.options
    ensures 2 <= option.nextId <= 5
    ensures Depth(option.nextId) == Depth(id) + 1
    ensures option.nextId == EndNode <==> id != StartId
  {
    FindInStory(id);
  }

  /** The step label, "Step n of m". */
  datatype StepLabel = StepLabel(step: nat, total: nat)

  /** What the game renders. */
  datatype Screen =
    | LoadingStory
    | Reflection(pending: bool, analysis: Option<Analysis>)
    | Question(scenario: Scenario, stepLabel: StepLabel)

  /**
   * The render as written: look the current id up first, show "Loading
   * story..." when it is missing, the reflection when the found scenario is
   * the end node, and the question otherwise, labelled with one more than
   * the choices made out of one less than the number of scenarios.
   */
  function ViewAsWritten(currentId: int, choices: seq<Choice>, analysis: Option<Analysis>, isPending: bool): (s: Screen)
    ensures s.LoadingStory? <==> !(1 <= currentId <= 4)
    ensures s.Question? ==> s.scenario.id == currentId && s.stepLabel == StepLabel(|choices| + 1, 3)
  {
    FindInStory(currentId);
    match Find(Story, currentId)
    case None => LoadingStory
    case Some(scenario) =>
      if scenario.id == EndNode then Reflection(isPending, analysis)
      else Question(scenario, StepLabel(|choices| + 1, |Story| - 1))
  }

  /** The reflection screen is never rendered as written: the end node has no scenario, so the lookup fails first. */
  lemma ReflectionUnreachableAsWritten(currentId: int, choices: seq<Choice>, analysis: Option<Analysis>, isPending: bool)
    ensures !ViewAsWritten(currentId, choices, analysis, isPending).Reflection?
    ensures currentId == EndNode ==> ViewAsWritten(currentId, choices, analysis, isPending) == LoadingStory
  {
    FindInStory(currentId);
  }

  /** The number of choices on every path through the story. */
  const PathLength: nat := 2

  /**
   * The render with the end node tested before the lookup: the reflection
   * for the end node, the question for a scenario of the story, labelled
   * out of the number of choices a path takes.
   */
  function View(currentId: int, choices: seq<Choice>, analysis: Option<Analysis>, isPending: bool): (s: Screen)
    ensures s.Reflection? <==> currentId == EndNode
    ensures s.Reflection? ==> s == Reflection(isPending, analysis)
    ensures s.Question? ==> s.scenario.id == currentId && s.stepLabel.step == |choices| + 1
  {
    if currentId == EndNode then Reflection(isPending, analysis)
    else match Find(Story, currentId)
      case None => LoadingStory
      case Some(scenario) => Question(scenario, StepLabel(|choices| + 1, PathLength))
  }

  class ChooseYourFeelings {
    var currentScenarioId: int
    var userChoices: seq<Choice>
    var analysis: Option<Analysis>
    var isPending: bool

    /** The game sits on a node of the story, having made as many choices as the node is deep. */
    ghost predicate Valid()
      reads this
    {
      1 <= currentScenarioId <= 5 && |userChoices| == Depth(currentScenarioId)
    }

    constructor ()
      ensures Valid()
      ensures currentScenarioId == StartId && userChoices == [] && analysis == None && !isPending
    {
      currentScenarioId := StartId;
      userChoices := [];
      analysis := None;
      isPending := false;
    }

    /**
     * `handleChoice`: records the choice and moves to the option's next
     * node; reaching the end node starts the analysis request, whose input
     * is the recorded choices. Only the options of the current scenario
     * are offered.
     */
    method HandleChoice(option: ChoiceOption) returns (request: Option<seq<Choice>>)
      requires Valid()
      requires Find(Story, currentScenarioId).Some? && option in Find(Story, currentScenarioId).value.options
      modifies this
      ensures Valid()
      ensures userChoices == old(userChoices) + [Choice(Find(Story, old(currentScenarioId)).value.scenario, option.text)]
      ensures currentScenarioId == option.nextId
      ensures request == (if option.nextId == EndNode then Some(userChoices) else None)
      ensures isPending == (option.nextId == EndNode || old(isPending))
      ensures analysis == old(analysis)
    {
      StoryShape(currentScenarioId, option);
      var current := Find(Story, currentScenarioId).value;
      var choice := Choice(current.scenario, option.text);
      userChoices := userChoices + [choice];
      if option.nextId == EndNode {
        currentScenarioId := EndNode;
        isPending := true;
        request := Some(userChoices);
      } else {
        currentScenarioId := option.nextId;
        request := None;
      }
    }

    /** The analysis request completes and its result is stored. */
    method ReceiveAnalysis(result: Option<Analysis>)
      requires isPending
      modifies this
      ensures analysis == result && !isPending
      ensures currentScenarioId == old(currentScenarioId) && userChoices == old(userChoices)
    {
      analysis := result;
      isPending := false;
    }

    /** `resetGame`: back to the first scenario with no choices and no analysis. */
    method ResetGame()
      modifies this
      ensures Valid()
      ensures currentScenarioId == StartId && userChoices == [] && analysis == None
      ensures isPending == old(isPending)
    {
      currentScenarioId := StartId;
      userChoices := [];
      analysis := None;
    }
  }

  /**
   * In every reachable state the corrected render shows the reflection at
   * the end node and a question elsewhere, never "Loading story...", and
   * the step shown never exceeds the label's total, which the last
   * question reaches.
   */
  lemma ViewOfValidState(currentId: int, choices: seq<Choice>, analysis: Option<Analysis>, isPending: bool)
    requires 1 <= currentId <= 5 && |choices| == Depth(currentId)
    ensures currentId == EndNode ==> View(currentId, choices, analysis, isPending).Reflection?
    ensures currentId != EndNode ==> View(currentId, choices, analysis, isPending).Question?
    ensures View(currentId, choices, analysis, isPending).Question? ==>
      View(currentId, choices, analysis, isPending).stepLabel.step <= View(currentId, choices, analysis, isPending).stepLabel.total
    ensures currentId != StartId && currentId != EndNode ==>
      View(currentId, choices, analysis, isPending).stepLabel.step == View(currentId, choices, analysis, isPending).stepLabel.total
  {
    FindInStory(currentId);
  }

  /** As written, the label's total of 3 is never reached: a question shows step 1 or 2 only. */
  lemma StepTotalNeverReachedAsWritten(currentId: int, choices: seq<Choice>, analysis: Option<Analysis>, isPending: bool)
    requires 1 <= currentId <= 5 && |choices| == Depth(currentId)
    ensures ViewAsWritten(currentId, choices, analysis, isPending).Question? ==>
      ViewAsWritten(currentId, choices, analysis, isPending).stepLabel.step < ViewAsWritten(currentId, choices, analysis, isPending).stepLabel.total
  {
  }

  /**
   * A whole play-through of the first option at each step: two choices
   * reach the end node and send both choices for analysis; the render as
   * written then shows "Loading story...", the corrected render the
   * pending reflection.
   */
  method PlayThrough() returns (request: Option<seq<Choice>>, asWritten: Screen, corrected: Screen)
    ensures request.Some? && |request.value| == PathLength
    ensures asWritten == LoadingStory
    ensures corrected == Reflection(true, None)
  {
    var g := new ChooseYourFeelings();
    FindInStory(StartId);
    var first := Find(Story, g.currentScenarioId).value.options[0];
    request := g.HandleChoice(first);
    FindInStory(g.currentScenarioId);
    var second := Find(Story, g.currentScenarioId).value.options[0];
    request := g.HandleChoice(second);
    asWritten := ViewAsWritten(g.currentScenarioId, g.userChoices, g.analysis, g.isPending);
    corrected := View(g.currentScenarioId, g.userChoices, g.analysis, g.isPending);
    ReflectionUnreachableAsWritten(g.currentScenarioId, g.userChoices, g.analysis, g.isPending);
  }
}
