/**
 * What the detail page's similar-products request asks for: the page's
 * exclusion list (components/ProductDetailPage.tsx) placed in the prompt of
 * `getSimilarProducts` (services/geminiService.ts).
 */
module SimilarRequests {
  import opened Types
  import opened Seqs
  import opened Prompts
  import opened ProductDetailPage

  /**
   * Whatever the prompt's fixed wording, the request asks the service to leave
   * out the product and each similar product already shown.
   */
  lemma SimilarRequestExcludesShown(w: SimilarWording, product: Product, similar: seq<Product>, i: nat)
    requires i < |similar|
    ensures Contains(SimilarProductsPromptIn(w, product, ExcludeList(product.title, similar)), product.title)
    ensures Contains(SimilarProductsPromptIn(w, product, ExcludeList(product.title, similar)), similar[i].title)
  {
    var exclude := ExcludeList(product.title, similar);
    assert exclude[0] == product.title;
    SimilarProductsPromptExcludes(w, product, exclude, 0);
    assert exclude[i + 1] == similar[i].title;
    SimilarProductsPromptExcludes(w, product, exclude, i + 1);
  }
}
