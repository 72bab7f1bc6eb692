/**
 * The key-value table behind the handlers, reduced to one map from the
 * partition key to the stored item.  The table is keyed by the single string
 * attribute "ProductID".
 *
 * Every store call takes a flag `storeFails` that stands for the service
 * raising an exception (throttling, network, permissions).  A failed call
 * leaves the table as it was.
 */
module ProductStore {
  import opened Wrappers
  import opened JsonValue

  /** The partition key attribute of the table. */
  const KeyAttribute := "ProductID"

  /** A stored item: its attribute names and values. */
  type Item = map<string, Json>

  /** The table contents, by partition key. */
  type Items = map<string, Item>

  /** Why a store call raised. */
  datatype StoreError =
    | ServiceFailure   // the service itself raised
    | InvalidKey       // the item or key does not fit the key schema

  /** The partition key of an item to be stored: "ProductID", as a string. */
  function KeyOf(item: Json): Option<string> {
    if item.JObj? && KeyAttribute in item.fields && item.fields[KeyAttribute].JStr?
    then Some(item.fields[KeyAttribute].s)
    else None
  }

  /** Every item is filed under its own "ProductID". */
  ghost predicate ValidItems(items: Items) {
    forall k :: k in items ==> KeyAttribute in items[k] && items[k][KeyAttribute] == JStr(k)
  }

  /** The table, with its contents held in place. */
  class Table {
    var items: Items

    ghost predicate Valid()
      reads this
    {
      ValidItems(items)
    }

    constructor (initial: Items)
      requires ValidItems(initial)
      ensures Valid() && items == initial
    {
      items := initial;
    }

    /** `get_item`: the stored item, or nothing when the key is absent. */
    method GetItem(key: string, storeFails: bool) returns (r: Result<Option<Item>, StoreError>)
      ensures storeFails ==> r == Failure(ServiceFailure)
      ensures !storeFails ==> r.Success?
      ensures !storeFails && key in items ==> r.value == Some(items[key])
      ensures !storeFails && key !in items ==> r.value == None
    {
      if storeFails {
        return Failure(ServiceFailure);
      }
      if key in items {
        r := Success(Some(items[key]));
      } else {
        r := Success(None);
      }
    }

    /** `put_item`: store the item under its key, replacing any item there. */
    method PutItem(item: Json, storeFails: bool) returns (r: Result<(), StoreError>)
      requires Valid()
      modifies this
      ensures Valid()
      ensures storeFails ==> r == Failure(ServiceFailure)
      ensures !storeFails && KeyOf(item).None? ==> r == Failure(InvalidKey)
      ensures r.Success? <==> !storeFails && KeyOf(item).Some?
      ensures r.Success? ==> items == old(items)[KeyOf(item).value := item.fields]
      ensures r.Failure? ==> items == old(items)
    {
      if storeFails {
        return Failure(ServiceFailure);
      }
      var key := KeyOf(item);
      if key.None? {
        return Failure(InvalidKey);
      }
      items := items[key.value := item.fields];
      r := Success(());
    }

    /** `delete_item`: remove whatever is stored under the key, if anything. */
    method DeleteItem(key: Json, storeFails: bool) returns (r: Result<(), StoreError>)
      requires Valid()
      modifies this
      ensures Valid()
      ensures storeFails ==> r == Failure(ServiceFailure)
      ensures !storeFails && !key.JStr? ==> r == Failure(InvalidKey)
      ensures r.Success? <==> !storeFails && key.JStr?
      ensures r.Success? ==> items == old(items) - {key.s}
      ensures r.Failure? ==> items == old(items)
    {
      if storeFails {
        return Failure(ServiceFailure);
      }
      if !key.JStr? {
        return Failure(InvalidKey);
      }
      items := items - {key.s};
      r := Success(());
    }
  }
}
