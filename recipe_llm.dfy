/**
 * Recipe generation through the agent: the prompt built from a recipe-suggestion
 * request, and the single-attempt call that returns the completion or raises the
 * agent's error unchanged.
 */
module RecipeLlm {
  import opened Wrappers
  import opened Strings
  import opened AgentStream

  /** One ingredient offered to the recipe: name, quantity and unit as typed by the user. */
  datatype SuggestionIngredient = SuggestionIngredient(name: string, quantity: int, unit: string)

  /**
   * A recipe-suggestion request: the dish name, the number of people, the optional
   * preference, cooking time, allergy list and other conditions, and the ingredients.
   */
  datatype RecipeSuggestionRequest = RecipeSuggestionRequest(
    recipesName: string,
    peopleCount: int,
    mealPreference: Option<string>,
    cookingTime: Option<string>,
    allergies: Option<seq<string>>,
    otherConditions: Option<string>,
    ingredients: seq<SuggestionIngredient>)

  /** A string field is truthy when it is present and not empty. */
  predicate Present(v: Option<string>)
  {
    v.Some? && v.value != ""
  }

  /** `- name：quantityunit` */
  function IngredientLine(item: SuggestionIngredient): string
  {
    "- " + item.name + "：" + IntToString(item.quantity) + item.unit
  }

  /** One line per ingredient, in the order given. */
  function IngredientLines(items: seq<SuggestionIngredient>): (lines: seq<string>)
    ensures |lines| == |items|
    ensures forall i :: 0 <= i < |items| ==> lines[i] == IngredientLine(items[i])
  {
    if items == [] then [] else [IngredientLine(items[0])] + IngredientLines(items[1..])
  }

  /** The ingredient lines joined by newlines. */
  function IngredientBlock(items: seq<SuggestionIngredient>): string
  {
    Join(IngredientLines(items), "\n")
  }

  /** The line a truthy optional field contributes; an absent or empty field leaves its slot empty. */
  function OptionalLine(caption: string, v: Option<string>): (line: string)
    requires caption != ""
    ensures line == "" <==> !Present(v)
    ensures Present(v) ==> line == caption + v.value
  {
    if Present(v) then caption + v.value else ""
  }

  /** The allergy slot: a line only for a non-empty list, its entries joined by ", ". */
  function AllergyLine(allergies: Option<seq<string>>): (line: string)
    ensures line == "" <==> (allergies.None? || |allergies.value| == 0)
    ensures allergies.Some? && |allergies.value| > 0 ==>
              line == "- アレルギー: " + Join(allergies.value, ", ")
  {
    if allergies.Some? && |allergies.value| > 0 then "- アレルギー: " + Join(allergies.value, ", ") else ""
  }

  function PeopleLine(peopleCount: int): string
  {
    "- 人数: " + IntToString(peopleCount) + "人前"
  }

  /** The six lines of the conditions block, each optional slot on a line of its own. */
  function ConditionLines(req: RecipeSuggestionRequest): seq<string>
  {
    [ "【条件】",
      PeopleLine(req.peopleCount),
      OptionalLine("- 料理の好み: ", req.mealPreference),
      OptionalLine("- 調理時間: ", req.cookingTime),
      AllergyLine(req.allergies),
      OptionalLine("- その他の条件: ", req.otherConditions) ]
  }

  function Header(req: RecipeSuggestionRequest): string
  {
    req.recipesName + "のレシピを作成してください。"
  }

  function IngredientSection(req: RecipeSuggestionRequest): string
  {
    "【使用できる食材】\n" + IngredientBlock(req.ingredients)
  }

  /** The requested output format, which closes every prompt. */
  const FormatBlock: string :=
    "以下の形式でマークダウン形式のレシピを作成してください：\n# レシピ名\n\n## 材料（人数分）\n"
    + "- 材料1: 量\n- 材料2: 量\n...\n\n## 作り方\n1. 手順1\n2. 手順2\n...\n\n## ポイント\n"
    + "- 調理のコツや注意点"

  /** The four sections of the prompt, separated by blank lines. */
  function PromptSections(req: RecipeSuggestionRequest): string
  {
    Header(req) + MiddleSections(req) + FormatBlock
  }

  /** The conditions and the ingredients, each preceded and the whole followed by a blank line. */
  function MiddleSections(req: RecipeSuggestionRequest): string
  {
    "\n\n" + Join(ConditionLines(req), "\n") + "\n\n" + IngredientSection(req) + "\n\n"
  }

  /** The template literal before trimming: the sections between an opening and a closing newline. */
  function TemplateBody(req: RecipeSuggestionRequest): string
  {
    "\n" + PromptSections(req) + "\n"
  }

  /** The prompt: the trimmed template, so it neither starts nor ends with whitespace. */
  function RecipePrompt(req: RecipeSuggestionRequest): (prompt: string)
    ensures prompt == [] || (!IsJsWhitespace(prompt[0]) && !IsJsWhitespace(prompt[|prompt| - 1]))
  {
    Trim(TemplateBody(req))
  }

  lemma TrimStartOfNonWhitespace(s: string)
    requires s != [] && !IsJsWhitespace(s[0])
    ensures TrimStart(s) == s
  {
  }

  lemma TrimEndOfNonWhitespace(s: string)
    requires s != [] && !IsJsWhitespace(s[|s| - 1])
    ensures TrimEnd(s) == s
  {
  }

  /** Trimming a newline-wrapped text whose ends are not whitespace gives back the text. */
  lemma TrimNewlineWrapped(c: string)
    requires c != [] && !IsJsWhitespace(c[0]) && !IsJsWhitespace(c[|c| - 1])
    ensures Trim("\n" + c + "\n") == c
  {
    var body := "\n" + c + "\n";
    assert body[1..] == c + "\n";
    assert TrimStart(body) == TrimStart(c + "\n");
    TrimStartOfNonWhitespace(c + "\n");
    assert (c + "\n")[..|c|] == c;
    assert TrimEnd(c + "\n") == TrimEnd(c);
    TrimEndOfNonWhitespace(c);
  }

  /**
   * When the dish name does not start with whitespace, trimming removes exactly the
   * template's opening and closing newline: the prompt is the dish-name header, the
   * conditions, the ingredients and the format block, separated by blank lines.
   */
  lemma PromptShape(req: RecipeSuggestionRequest)
    requires req.recipesName == "" || !IsJsWhitespace(req.recipesName[0])
    ensures RecipePrompt(req) == PromptSections(req)
  {
    HeaderStart(req);
    FormatBlockEnd();
    OuterChars(Header(req), MiddleSections(req), FormatBlock);
    TrimNewlineWrapped(PromptSections(req));
  }

  lemma HeaderStart(req: RecipeSuggestionRequest)
    requires req.recipesName == "" || !IsJsWhitespace(req.recipesName[0])
    ensures Header(req) != [] && !IsJsWhitespace(Header(req)[0])
  {
    if req.recipesName == "" {
      assert Header(req)[0] == 'の';
    } else {
      assert Header(req)[0] == req.recipesName[0];
    }
  }

  lemma FormatBlockEnd()
    ensures FormatBlock != [] && !IsJsWhitespace(FormatBlock[|FormatBlock| - 1])
  {
    assert FormatBlock[|FormatBlock| - 1] == '点';
  }

  lemma OuterChars(h: string, m: string, f: string)
    requires h != [] && f != []
    ensures var c := h + m + f; c != [] && c[0] == h[0] && c[|c| - 1] == f[|f| - 1]
  {
  }

  /** No line of the conditions block contains a line break when the request's texts do not. */
  lemma ConditionLinesAvoidNewline(req: RecipeSuggestionRequest)
    requires req.mealPreference.Some? ==> '\n' !in req.mealPreference.value
    requires req.cookingTime.Some? ==> '\n' !in req.cookingTime.value
    requires req.otherConditions.Some? ==> '\n' !in req.otherConditions.value
    requires req.allergies.Some? ==> forall i :: 0 <= i < |req.allergies.value| ==> '\n' !in req.allergies.value[i]
    ensures forall i :: 0 <= i < |ConditionLines(req)| ==> '\n' !in ConditionLines(req)[i]
  {
    IntToStringAvoidsNewline(req.peopleCount);
    if req.allergies.Some? {
      JoinAvoids(req.allergies.value, ", ", '\n');
    }
  }

  /**
   * Each condition takes its own line of the conditions block, in template order: the
   * heading, the people count, then the preference, cooking-time, allergy and
   * other-condition slots (an empty line where the field is absent).
   */
  lemma ConditionsBlockLines(req: RecipeSuggestionRequest)
    requires req.mealPreference.Some? ==> '\n' !in req.mealPreference.value
    requires req.cookingTime.Some? ==> '\n' !in req.cookingTime.value
    requires req.otherConditions.Some? ==> '\n' !in req.otherConditions.value
    requires req.allergies.Some? ==> forall i :: 0 <= i < |req.allergies.value| ==> '\n' !in req.allergies.value[i]
    ensures var lines := Split(Join(ConditionLines(req), "\n"), '\n');
            && |lines| == 6
            && lines[1] == PeopleLine(req.peopleCount)
            && (lines[2] == "" <==> !Present(req.mealPreference))
            && (lines[3] == "" <==> !Present(req.cookingTime))
            && (lines[4] == "" <==> req.allergies.None? || |req.allergies.value| == 0)
            && (lines[5] == "" <==> !Present(req.otherConditions))
  {
    ConditionLinesAvoidNewline(req);
    SplitJoin(ConditionLines(req), '\n');
  }

  lemma IntToStringAvoidsNewline(n: int)
    ensures '\n' !in IntToString(n)
  {
    var d := NatToString(if n < 0 then -n else n);
    assert forall i :: 0 <= i < |d| ==> IsDigit(d[i]);
  }

  /**
   * The ingredient block reads back, line by line, as one line per ingredient in input
   * order, provided no name or unit contains a line break.
   */
  lemma IngredientBlockLines(items: seq<SuggestionIngredient>)
    requires |items| >= 1
    requires forall i :: 0 <= i < |items| ==> '\n' !in items[i].name && '\n' !in items[i].unit
    ensures var lines := Split(IngredientBlock(items), '\n');
            && |lines| == |items|
            && forall i :: 0 <= i < |items| ==> lines[i] == IngredientLine(items[i])
  {
    var lines := IngredientLines(items);
    forall i | 0 <= i < |lines|
      ensures '\n' !in lines[i]
    {
      IntToStringAvoidsNewline(items[i].quantity);
    }
    SplitJoin(lines, '\n');
  }

  /**
   * The single agent call: one invocation with the prompt, the completion read from the
   * reply, any failure raised again with its cause unchanged. `sent` records the
   * invocations made.
   */
  method CallLLM(prompt: string, agent: Agent, session: nat)
    returns (r: Result<string, string>, sent: seq<Invocation>)
    ensures sent == [Invocation(session, prompt, None)]
    ensures r == ReplyText(agent(sent[0]))
  {
    var invocation := Invocation(session, prompt, None);
    var reply := agent(invocation);
    r := ReadReply(reply);
    sent := [invocation];
  }

  /**
   * Recipe generation: exactly one invocation, carrying the prompt built from the request;
   * its completion is returned and its failure raised. The recipe id is not used.
   */
  method GenerateRecipeSuggestions(req: RecipeSuggestionRequest, recipeId: string, agent: Agent, session: nat)
    returns (r: Result<string, string>, sent: seq<Invocation>)
    ensures |sent| == 1 && sent[0].inputText == RecipePrompt(req) && sent[0].image.None?
    ensures r == ReplyText(agent(sent[0]))
  {
    r, sent := CallLLM(RecipePrompt(req), agent, session);
  }
}
