/** The native resource registries: each `create_allocator!` module is a
    counter and a hash map from resource id to item. */
module Allocators {
  import opened Wrappers
  import opened Foreign
  import Fmt

  /** The items of the `models` registry, one variant per pipeline the crate
      wraps (the union of the variants the entry points construct). */
  datatype Model =
    | TranslationModel(sourceLanguages: seq<Language>, targetLanguages: seq<Language>)
    | QuestionAnsweringModel
    | NERModel
    | SentimentModel
    | ConversationModel
    | TextGenerationModel
    | SummarizationModel
    | POSModel
    | ZeroShotClassificationModel

  /** The items of the `model_resources` registry. */
  datatype ModelResource = ConversationManager(conversations: map<Uuid, Conversation>)

  /** The items of the `model_resource_accessors` registry. */
  datatype ModelResourceAccessor = ConversationId(id: Uuid)

  const NoSuchResource := "Failed to get resource with id."

  function DeallocateFailure(rid: nat): string {
    "Failed to deallocate item with resource id of " + Fmt.Decimal(rid) + "."
  }

  /** One registry: `COUNTER` and `ALLOCATOR` of a `create_allocator!` module. */
  class Allocator<T> {
    var counter: nat
    var items: map<nat, T>

    /** Every live id was handed out before, so the next id is unused. */
    ghost predicate Valid()
      reads this
    {
      forall rid :: rid in items ==> rid < counter
    }

    constructor ()
      ensures Valid() && counter == 0 && items == map[]
    {
      counter := 0;
      items := map[];
    }

    /** Binds the next id to `item` and returns it; it never fails. The id
        is not live before the call, and it will never be handed out again. */
    method Allocate(item: T) returns (r: Result<nat, string>)
      requires Valid()
      modifies this
      ensures Valid()
      ensures r == Ok(old(counter)) && old(counter) !in old(items)
      ensures counter == old(counter) + 1
      ensures items == old(items)[old(counter) := item]
    {
      var rid := counter;
      items := items[rid := item];
      counter := counter + 1;
      r := Ok(rid);
    }

    /** Removes a live id and returns its item; an absent id fails and
        changes nothing. The counter never moves back. */
    method Deallocate(rid: nat) returns (r: Result<T, string>)
      requires Valid()
      modifies this
      ensures Valid() && counter == old(counter)
      ensures rid in old(items) ==> r == Ok(old(items)[rid]) && items == old(items) - {rid}
      ensures rid !in old(items) ==> r == Err(DeallocateFailure(rid)) && items == old(items)
    {
      if rid in items {
        r := Ok(items[rid]);
        items := items - {rid};
      } else {
        r := Err(DeallocateFailure(rid));
      }
    }

    /** Runs `f` on the item of a live id. `f` models the closure handed a
        `&mut` to the item: it returns the item as it leaves it and its
        result, and the entry keeps `f`'s changes whether `f` succeeds or
        fails. An absent id fails without running `f`. */
    method WithAccess<R>(rid: nat, f: T -> (T, Result<R, string>)) returns (r: Result<R, string>)
      requires Valid()
      modifies this
      ensures Valid() && counter == old(counter)
      ensures rid in old(items) ==>
        r == f(old(items)[rid]).1 && items == old(items)[rid := f(old(items)[rid]).0]
      ensures rid !in old(items) ==> r == Err(NoSuchResource) && items == old(items)
    {
      if rid in items {
        var (item, res) := f(items[rid]);
        items := items[rid := item];
        r := res;
      } else {
        r := Err(NoSuchResource);
      }
    }
  }
}
