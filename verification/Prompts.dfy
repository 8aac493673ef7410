/**
 * The prompts the gateway sends (services/geminiService.ts): the fixed
 * instructions and where the caller's values are placed in them.
 */
module Prompts {
  import opened Types
  import opened Seqs
  import opened Decimal

  /** Which prompt a request carries, with the values it is built from. */
  datatype Prompt =
    | Popular
    | ForUseCase(useCase: UseCase, answers: seq<Answer>)
    | SimilarTo(product: Product, excludeTitles: seq<string>)

  const POPULAR_PROMPT := @"
    You are EZYPC, a calm, expert assistant for a PC store in Kerala, India.
    Your tone must be trustworthy, reassuring, and professional.

    Please generate a list of 9 popular and well-regarded computer configurations to display on the main store page.
    Include a mix of Custom Builds, Prebuilt PCs, and Laptops across different price points and use cases.
    
    For each product:
    - Titles MUST be specific and based on key components.
    - Prices must be in Indian Rupees (INR).
    - Generate 2-3 purchase options from vendors like 'Amazon IN', 'Flipkart', 'MDComputers'. Vary the prices slightly for realism.
    - 'estimatedPriceINR' MUST be the lowest price from the generated purchase options.
    - Generate 2-3 realistic sample reviews with ratings from varied sources.
    - Mark the best overall value-for-money option with 'isBestMatch: true'.
    - Generate a specific, relevant, high-quality image URL from Unsplash Source.

    Generate the response according to the provided JSON schema.
  "

  const RECOMMENDATION_HEAD := @"
    You are EZYPC, a calm, expert assistant helping a user in Kerala, India, choose a new computer. Your tone must be trustworthy, reassuring, and professional.

    The user's primary use case is: "
  const RECOMMENDATION_ANSWERS := @"
    Their answers:
    "
  const RECOMMENDATION_RULES := @"

    Based on this, provide 2-3 suitable recommendations. 
    
    IMPORTANT:
    "
  /** The instruction that forces the first recommendation to be the best match. */
  const BEST_MATCH_RULE := "1. The first recommendation MUST be the best match. Mark 'isBestMatch' as true. All others must be false."
  const RECOMMENDATION_TAIL := @"
    2. Titles MUST be specific and based on key components.
    3. Generate 2-3 purchase options from vendors like 'Amazon IN', 'Flipkart', 'MDComputers'. Vary prices slightly.
    4. 'estimatedPriceINR' MUST be the lowest price from the purchase options.
    5. Generate 2-3 realistic sample reviews with ratings.
    6. The rationale should be concise and address the user's answers.
    7. Generate a specific, relevant, high-quality image URL from Unsplash Source.

    Generate the response according to the provided JSON schema.
  "

  const SIMILAR_HEAD := @"
        You are EZYPC, a calm, expert assistant for a PC store in Kerala, India.

        A user is currently viewing the following product:
        - Title: "
  const SIMILAR_TYPE := @"
        - Type: "
  const SIMILAR_PRICE := @"
        - Price: "
  const SIMILAR_EXCLUDE := @"

        Please generate a list of 2 similar but distinct alternative products. 
        - The recommendations should be in a similar price bracket and for a similar purpose.

        IMPORTANT: DO NOT include the original product or any of the following titles in the results: "
  const SIMILAR_TAIL := @".

        For each recommended product, follow these rules:
        - Titles MUST be specific and based on key components.
        - Generate 2-3 purchase options from vendors like 'Amazon IN', 'Flipkart', 'MDComputers'. Vary prices slightly.
        - 'estimatedPriceINR' MUST be the lowest price from the purchase options.
        - Generate 2-3 realistic sample reviews with ratings.
        - The rationale should explain why it's a good alternative.
        - Mark 'isBestMatch' as false for all similar products.
        - Generate a specific, relevant, high-quality image URL from Unsplash Source.

        Generate the response according to the provided JSON schema.
    "

  /**
   * The fixed wording of the recommendation prompt: the text before the use
   * case, between it and the answers, after the answers, the best-match rule,
   * and the closing text.
   */
  datatype RecommendationWording =
    RecommendationWording(head: string, answersLabel: string, rules: string, bestMatchRule: string, tail: string)

  /**
   * The fixed wording of the similar-products prompt: the text before the
   * title, the type, the price and the exclusion list, and the closing text.
   */
  datatype SimilarWording =
    SimilarWording(head: string, typeLabel: string, priceLabel: string, excludeLabel: string, tail: string)

  const RECOMMENDATION_WORDING: RecommendationWording :=
    RecommendationWording(RECOMMENDATION_HEAD, RECOMMENDATION_ANSWERS, RECOMMENDATION_RULES, BEST_MATCH_RULE,
                          RECOMMENDATION_TAIL)

  const SIMILAR_WORDING: SimilarWording :=
    SimilarWording(SIMILAR_HEAD, SIMILAR_TYPE, SIMILAR_PRICE, SIMILAR_EXCLUDE, SIMILAR_TAIL)

  /** One answer as the prompt shows it. */
  function AnswerLine(a: Answer): string
  {
    "- " + a.question + ": " + a.answer
  }

  /** The answers, one line each, in the order given. */
  function AnswerBlock(answers: seq<Answer>): string
  {
    Join(seq(|answers|, i requires 0 <= i < |answers| => AnswerLine(answers[i])), "\n")
  }

  /** `buildRecommendationPrompt`. */
  function RecommendationPrompt(useCase: UseCase, answers: seq<Answer>): string
  {
    RecommendationPromptIn(RECOMMENDATION_WORDING, useCase, answers)
  }

  /** The recommendation prompt with the given fixed wording around the caller's values. */
  function RecommendationPromptIn(w: RecommendationWording, useCase: UseCase, answers: seq<Answer>): string
  {
    w.head + UseCaseLabel(useCase) + w.answersLabel + AnswerBlock(answers) + w.rules + w.bestMatchRule + w.tail
  }

  /** The prompt of `getSimilarProducts`. */
  function SimilarProductsPrompt(product: Product, excludeTitles: seq<string>): string
  {
    SimilarProductsPromptIn(SIMILAR_WORDING, product, excludeTitles)
  }

  /** The similar-products prompt with the given fixed wording around the caller's values. */
  function SimilarProductsPromptIn(w: SimilarWording, product: Product, excludeTitles: seq<string>): string
  {
    w.head + product.title + w.typeLabel + TypeName(product.productType)
    + w.priceLabel + Rupees(product.estimatedPriceINR)
    + w.excludeLabel + Join(excludeTitles, ", ") + w.tail
  }

  /** A price as the prompt writes it: the rupee sign and the integer's decimal digits. */
  function Rupees(amount: int): string
  {
    "₹" + IntToString(amount)
  }

  /** The answer block is empty exactly when there are no answers. */
  lemma AnswerBlockEmpty(answers: seq<Answer>)
    ensures AnswerBlock(answers) == "" <==> answers == []
  {
    var lines := seq(|answers|, i requires 0 <= i < |answers| => AnswerLine(answers[i]));
    JoinEmpty(lines, "\n");
  }

  /** The pieces of a seven-part concatenation at positions two, four and six occur in it. */
  lemma SevenPieces(a: string, b: string, c: string, d: string, e: string, f: string, g: string)
    ensures Contains(a + b + c + d + e + f + g, b)
    ensures Contains(a + b + c + d + e + f + g, d)
    ensures Contains(a + b + c + d + e + f + g, f)
  {
    var s := a + b + c + d + e + f + g;
    assert s == a + b + (c + d + e + f + g);
    ContainsMiddle(a, b, c + d + e + f + g);
    assert s == a + b + c + d + (e + f + g);
    ContainsMiddle(a + b + c, d, e + f + g);
    ContainsMiddle(a + b + c + d + e, f, g);
  }

  /**
   * Whatever its fixed wording, the recommendation prompt holds the use case,
   * the answer block, every answer line, and the rule that makes the first
   * recommendation the best match.
   */
  lemma RecommendationPromptContents(w: RecommendationWording, useCase: UseCase, answers: seq<Answer>)
    ensures Contains(RecommendationPromptIn(w, useCase, answers), UseCaseLabel(useCase))
    ensures Contains(RecommendationPromptIn(w, useCase, answers), AnswerBlock(answers))
    ensures Contains(RecommendationPromptIn(w, useCase, answers), w.bestMatchRule)
    ensures forall i :: 0 <= i < |answers| ==>
      Contains(RecommendationPromptIn(w, useCase, answers), AnswerLine(answers[i]))
  {
    var p := RecommendationPromptIn(w, useCase, answers);
    var block := AnswerBlock(answers);
    SevenPieces(w.head, UseCaseLabel(useCase), w.answersLabel, block, w.rules, w.bestMatchRule, w.tail);
    var lines := seq(|answers|, i requires 0 <= i < |answers| => AnswerLine(answers[i]));
    forall i | 0 <= i < |answers|
      ensures Contains(p, AnswerLine(answers[i]))
    {
      JoinContainsPart(lines, "\n", i);
      ContainsTransitive(p, block, lines[i]);
    }
  }

  /** The worked example: the Gaming prompt with one budget answer. */
  lemma GamingBudgetExample(w: RecommendationWording)
    ensures var p := RecommendationPromptIn(w, Gaming, [Answer("Budget?", "Under ₹60,000")]);
      Contains(p, "Gaming") && Contains(p, "Budget?: Under ₹60,000") && Contains(p, w.bestMatchRule)
  {
    var a := Answer("Budget?", "Under ₹60,000");
    var p := RecommendationPromptIn(w, Gaming, [a]);
    RecommendationPromptContents(w, Gaming, [a]);
    assert Contains(p, AnswerLine([a][0]));
    ContainsMiddle("- ", "Budget?: Under ₹60,000", "");
    assert AnswerLine(a) == "- " + "Budget?: Under ₹60,000" + "";
    ContainsTransitive(p, AnswerLine(a), "Budget?: Under ₹60,000");
  }

  /** The pieces of a nine-part concatenation at even positions occur in it. */
  lemma NinePieces(a: string, b: string, c: string, d: string, e: string, f: string, g: string,
                   h: string, k: string)
    ensures var s := a + b + c + d + e + f + g + h + k;
      Contains(s, b) && Contains(s, d) && Contains(s, f) && Contains(s, h)
  {
    var s := a + b + c + d + e + f + g + h + k;
    assert s == a + b + c + d + e + f + (g + h + k);
    SevenPieces(a, b, c, d, e, f, g + h + k);
    ContainsMiddle(a + b + c + d + e + f + g, h, k);
  }

  /**
   * Whatever its fixed wording, the similar-products prompt holds the
   * product's title, type and rupee price, and the exclusion list joined by ", ".
   */
  lemma SimilarProductsPromptContents(w: SimilarWording, product: Product, excludeTitles: seq<string>)
    ensures var p := SimilarProductsPromptIn(w, product, excludeTitles);
      && Contains(p, product.title)
      && Contains(p, TypeName(product.productType))
      && Contains(p, Rupees(product.estimatedPriceINR))
      && Contains(p, Join(excludeTitles, ", "))
  {
    NinePieces(w.head, product.title, w.typeLabel, TypeName(product.productType), w.priceLabel,
               Rupees(product.estimatedPriceINR), w.excludeLabel, Join(excludeTitles, ", "), w.tail);
  }

  /** Whatever its fixed wording, the similar-products prompt holds every excluded title. */
  lemma SimilarProductsPromptExcludes(w: SimilarWording, product: Product, excludeTitles: seq<string>, i: nat)
    requires i < |excludeTitles|
    ensures Contains(SimilarProductsPromptIn(w, product, excludeTitles), excludeTitles[i])
  {
    SimilarProductsPromptContents(w, product, excludeTitles);
    JoinContainsPart(excludeTitles, ", ", i);
    ContainsTransitive(SimilarProductsPromptIn(w, product, excludeTitles), Join(excludeTitles, ", "), excludeTitles[i]);
  }
}
