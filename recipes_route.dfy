/**
 * The recipe-creation endpoint: it answers at once with the recipe id and starts
 * generation in the background. The continuation only derives a short description
 * from the generated content; nothing is stored, and the id is a fixed placeholder.
 */
module RecipesRoute {
  import opened Wrappers
  import opened Strings
  import opened AgentStream
  import opened RecipeLlm

  /** The placeholder id every created recipe gets. */
  const PlaceholderId: string := "123"

  /** The owner every request is attributed to. */
  const DummyUserId: string := "dummy-user-id"

  /** The request fields spread into the record, then the four fields set by the endpoint. */
  datatype InitialRecipe = InitialRecipe(
    request: RecipeSuggestionRequest,
    status: string,
    description: string,
    content: string,
    userId: string)

  /** `${peopleCount}人分の${mealPreference || ''}レシピを生成中...` */
  function PendingDescription(req: RecipeSuggestionRequest): (d: string)
    ensures var pref := if req.mealPreference.Some? then req.mealPreference.value else "";
            d == IntToString(req.peopleCount) + "人分の" + pref + "レシピを生成中..."
  {
    IntToString(req.peopleCount) + "人分の" + req.mealPreference.GetOr("") + "レシピを生成中..."
  }

  /** The record built before generation starts: in progress, without content. */
  function Initial(req: RecipeSuggestionRequest): (r: InitialRecipe)
    ensures r.request == req && r.status == "作成中" && r.content == "" && r.userId == DummyUserId
    ensures r.description == PendingDescription(req)
  {
    InitialRecipe(req, "作成中", PendingDescription(req), "", DummyUserId)
  }

  /**
   * The description derived from generated content: its first three lines joined by
   * spaces, cut to 100 characters followed by "..." when longer than 100.
   */
  function Description(content: string): (d: string)
    ensures |d| <= 103
    ensures '\n' !in d
    ensures |LinesPrefix(content, 3)| <= 100 ==> d == LinesPrefix(content, 3)
    ensures |LinesPrefix(content, 3)| > 100 ==> d == LinesPrefix(content, 3)[..100] + "..."
  {
    var parts := Split(content, '\n');
    var joined := Join(parts[..Min(3, |parts|)], " ");
    JoinFirstLines(content, 3);
    if |joined| > 100 then joined[..100] + "..." else joined
  }

  /** The response of the endpoint. */
  datatype Response =
    | Created(id: string)
    | ServerError(message: string)

  /** What the detached continuation computes once generation settles. */
  datatype Background = Background(
    initial: InitialRecipe,
    prompt: string,
    generation: Result<string, string>,
    description: Option<string>)

  /** The continuation: a description only for non-empty content; a failure is only logged. */
  function Settle(generation: Result<string, string>): (d: Option<string>)
    ensures d.Some? <==> generation.Success? && generation.value != ""
    ensures d.Some? ==> d.value == Description(generation.value)
  {
    if generation.Success? && generation.value != "" then Some(Description(generation.value)) else None
  }

  datatype PostResult = PostResult(response: Response, background: Option<Background>)

  /**
   * The endpoint, given the parsed body (`None` when the body is not JSON), the agent and
   * the session number its single invocation uses.
   */
  function Post(body: Option<RecipeSuggestionRequest>, agent: Agent, session: nat): (r: PostResult)
    ensures body.None? ==> r == PostResult(ServerError("Failed to process recipe creation"), None)
    ensures body.Some? ==> r.response == Created(PlaceholderId)
    ensures body.Some? ==> r.background.Some? && r.background.value.initial == Initial(body.value)
    ensures body.Some? ==>
              var bg := r.background.value;
              && bg.prompt == RecipePrompt(body.value)
              && bg.generation == ReplyText(agent(Invocation(session, bg.prompt, None)))
              && bg.description == Settle(bg.generation)
  {
    match body
    case None => PostResult(ServerError("Failed to process recipe creation"), None)
    case Some(req) =>
      var prompt := RecipePrompt(req);
      var generation := ReplyText(agent(Invocation(session, prompt, None)));
      PostResult(Created(PlaceholderId), Some(Background(Initial(req), prompt, generation, Settle(generation))))
  }

  /** The response never depends on the agent: generation errors do not reach it. */
  lemma ResponseIndependentOfAgent(body: Option<RecipeSuggestionRequest>, a1: Agent, a2: Agent, s1: nat, s2: nat)
    ensures Post(body, a1, s1).response == Post(body, a2, s2).response
  {
  }

  /** A failed generation leaves the description underived. */
  lemma FailureDerivesNothing(body: RecipeSuggestionRequest, agent: Agent, session: nat)
    requires !agent(Invocation(session, RecipePrompt(body), None)).Response?
    ensures Post(Some(body), agent, session).background.value.description.None?
    ensures Post(Some(body), agent, session).response == Created(PlaceholderId)
  {
  }

  /** Content with at most three short lines becomes its lines joined by spaces, unshortened. */
  lemma ShortContentDescription(a: string, b: string, c: string)
    requires '\n' !in a && '\n' !in b && '\n' !in c
    requires |a| + |b| + |c| + 2 <= 100
    ensures Description(a + "\n" + b + "\n" + c) == a + " " + b + " " + c
  {
    var content := a + "\n" + b + "\n" + c;
    JoinThree(a, b, c, "\n");
    JoinThree(a, b, c, " ");
    SplitJoin([a, b, c], '\n');
    JoinFirstLines(content, 3);
    assert Split(content, '\n')[..3] == [a, b, c];
  }

  /** Later lines never reach the description. */
  lemma FourthLineIgnored(a: string, b: string, c: string, rest: string)
    requires '\n' !in a && '\n' !in b && '\n' !in c
    ensures Description(a + "\n" + b + "\n" + c + "\n" + rest) == Description(a + "\n" + b + "\n" + c)
  {
    var s := a + "\n" + b + "\n" + c;
    JoinSplitCount(a, b, c);
    LinesPrefixStopsAtLastLine(s, rest, 3);
    assert s + "\n" + rest == a + "\n" + b + "\n" + c + "\n" + rest;
  }

  lemma JoinThree(a: string, b: string, c: string, sep: string)
    ensures Join([a, b, c], sep) == a + sep + b + sep + c
  {
    assert [a, b, c][1..] == [b, c];
    assert [b, c][1..] == [c];
    assert Join([b, c], sep) == b + sep + c;
    assert Join([a, b, c], sep) == a + sep + (b + sep + c);
  }

  lemma JoinSplitCount(a: string, b: string, c: string)
    requires '\n' !in a && '\n' !in b && '\n' !in c
    ensures Occurrences(a + "\n" + b + "\n" + c, '\n') == 2
  {
    JoinThree(a, b, c, "\n");
    SplitJoin([a, b, c], '\n');
  }

  /** The first `n` lines of `s + "\n" + rest` are those of `s` when `s` has fewer than `n` breaks. */
  lemma {:induction false} LinesPrefixStopsAtLastLine(s: string, rest: string, n: nat)
    requires n >= 1 && Occurrences(s, '\n') == n - 1
    ensures LinesPrefix(s + "\n" + rest, n) == LinesPrefix(s, n)
    decreases |s|
  {
    var t := s + "\n" + rest;
    if s == [] {
      assert t[0] == '\n';
    } else {
      assert t[1..] == s[1..] + "\n" + rest;
      if s[0] == '\n' {
        LinesPrefixStopsAtLastLine(s[1..], rest, n - 1);
      } else {
        LinesPrefixStopsAtLastLine(s[1..], rest, n);
      }
    }
  }
}
