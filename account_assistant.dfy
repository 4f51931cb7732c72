/** The account-opening assistant: the favorited products to choose from and,
    for the chosen one, a four-item checklist whose items tick on and off. */
module AccountAssistant {
  import opened Seqs
  import opened Types
  import opened Catalog
  import opened AppStore

  datatype Step = Step(id: string, title: string, completed: bool)

  /** The checklist as it starts: four items, none done. */
  const InitialSteps: seq<Step> := [
    Step("company", "\U{786E}\U{8BA4}\U{516C}\U{53F8}\U{4E3B}\U{4F53}", false),
    Step("eligibility", "\U{6838}\U{5B9E}\U{6295}\U{8D44}\U{8005}\U{8D44}\U{8D28}", false),
    Step("documents", "\U{51C6}\U{5907}\U{63D0}\U{4EA4}\U{8D44}\U{6599}", false),
    Step("apply", "\U{63D0}\U{4EA4}\U{5F00}\U{6237}\U{7533}\U{8BF7}", false)
  ]

  function StepIds(steps: seq<Step>): (ids: seq<string>)
    ensures |ids| == |steps|
    ensures forall i :: 0 <= i < |steps| ==> ids[i] == steps[i].id
  {
    seq(|steps|, i requires 0 <= i < |steps| => steps[i].id)
  }

  /** The initial checklist: four distinct items, in a fixed order, none done. */
  lemma InitialStepsSpec()
    ensures StepIds(InitialSteps) == ["company", "eligibility", "documents", "apply"]
    ensures Distinct(StepIds(InitialSteps))
    ensures forall i :: 0 <= i < |InitialSteps| ==> !InitialSteps[i].completed
  {
    assert StepIds(InitialSteps) == ["company", "eligibility", "documents", "apply"];
  }

  /** `toggleStep`'s update: every item with the id has its flag flipped. */
  function ToggledSteps(steps: seq<Step>, stepId: string): (r: seq<Step>)
    ensures |r| == |steps|
  {
    seq(|steps|, i requires 0 <= i < |steps| =>
      if steps[i].id == stepId then steps[i].(completed := !steps[i].completed) else steps[i])
  }

  /** Only the matching item changes, and only its flag; ids, titles and order stay. */
  lemma ToggledStepsSpec(steps: seq<Step>, stepId: string)
    ensures StepIds(ToggledSteps(steps, stepId)) == StepIds(steps)
    ensures forall i :: 0 <= i < |steps| ==>
      && ToggledSteps(steps, stepId)[i].title == steps[i].title
      && (ToggledSteps(steps, stepId)[i].completed <==> (steps[i].completed != (steps[i].id == stepId)))
  {
  }

  /** Ticking an item twice restores the checklist. */
  lemma ToggledStepsTwice(steps: seq<Step>, stepId: string)
    ensures ToggledSteps(ToggledSteps(steps, stepId), stepId) == steps
  {
    var once := ToggledSteps(steps, stepId);
    assert forall i :: 0 <= i < |steps| ==> ToggledSteps(once, stepId)[i] == steps[i];
  }

  /** `favoriteProducts`: the catalog's favorited products, in catalog order. */
  function FavoriteProducts(catalog: seq<Product>, favorites: seq<string>): seq<Product> {
    Filter(catalog, (p: Product) => p.id in favorites)
  }

  /** The favorites panel lists exactly the favorited catalog products, in the
      catalog's order whatever order they were favorited in. */
  lemma FavoriteProductsSpec(catalog: seq<Product>, favorites: seq<string>, favorites2: seq<string>)
    requires forall id :: id in favorites <==> id in favorites2
    ensures forall p :: p in FavoriteProducts(catalog, favorites) <==> p in catalog && p.id in favorites
    ensures FavoriteProducts(catalog, favorites) == FavoriteProducts(catalog, favorites2)
  {
    FilterCongruent(catalog, (p: Product) => p.id in favorites, (p: Product) => p.id in favorites2);
  }

  /** What the assistant page shows. */
  datatype View = NoFavorites | ChooseProduct | Checklist(product: Product)

  class Assistant {
    var selectedProductForAssistant: Option<string>
    var steps: seq<Step>

    constructor ()
      ensures selectedProductForAssistant == None && steps == InitialSteps
    {
      selectedProductForAssistant := None;
      steps := InitialSteps;
    }

    /** A click on a favorited product's card. */
    method SelectProduct(productId: string)
      modifies this`selectedProductForAssistant
      ensures selectedProductForAssistant == Some(productId)
    {
      selectedProductForAssistant := Some(productId);
    }

    method ToggleStep(stepId: string)
      modifies this`steps
      ensures steps == ToggledSteps(old(steps), stepId)
    {
      steps := ToggledSteps(steps, stepId);
    }

    /** Without favorites the empty state, whatever was chosen; otherwise the
        checklist of the chosen product (looked up in the whole catalog), or
        the prompt to choose one. */
    function CurrentView(catalog: seq<Product>, favorites: seq<string>): (v: View)
      reads this`selectedProductForAssistant
      ensures v == NoFavorites <==> forall i :: 0 <= i < |catalog| ==> catalog[i].id !in favorites
      ensures v.Checklist? ==> v.product in catalog && Some(v.product.id) == selectedProductForAssistant
      ensures v != NoFavorites ==> (v.Checklist? <==> ProductById(catalog, selectedProductForAssistant).Some?)
      ensures v.Checklist? ==> ProductById(catalog, selectedProductForAssistant) == Some(v.product)
    {
      if |FavoriteProducts(catalog, favorites)| == 0 then
        assert forall i :: 0 <= i < |catalog| ==> catalog[i] !in FavoriteProducts(catalog, favorites);
        NoFavorites
      else
        var first := FavoriteProducts(catalog, favorites)[0];
        assert first in catalog && first.id in favorites;
        match ProductById(catalog, selectedProductForAssistant)
        case Some(p) => Checklist(p)
        case None => ChooseProduct
    }

    /** The checklist's "details" button: select the product in the store and
        go to the home page, where the product list shows it. */
    method ViewDetails(store: Store, product: Product)
      modifies store`selectedProductId, store`currentPage
      ensures store.selectedProductId == Some(product.id) && store.currentPage == Home
    {
      store.SetSelectedProductId(Some(product.id));
      store.SetCurrentPage(Home);
    }
  }
}
