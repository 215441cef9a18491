/**
 * `ProductService.bulk_create_products`: the ids not yet in the list are
 * turned into `ProductInfo` rows and inserted with conflicts ignored, so
 * the table holds at most one row per (list, product id).
 */
module BulkCreate {
  /** A `ProductInfo` of the upload models: its user, its list and its product id. */
  datatype ProductInfo = ProductInfo(user: int, productList: int, productId: string)

  type Key = (int, string)

  function KeyOf(p: ProductInfo): Key {
    (p.productList, p.productId)
  }

  /** The product ids already in `productList`. */
  function ExistingIds(rows: map<Key, ProductInfo>, productList: int): set<string> {
    set k | k in rows && k.0 == productList :: k.1
  }

  /** `[pid for pid in product_ids if pid and pid not in existing_ids]` */
  function NewIds(productIds: seq<string>, existing: set<string>): (ids: seq<string>)
    ensures |ids| <= |productIds|
    ensures forall x :: x in ids <==> x in productIds && x != "" && x !in existing
    decreases |productIds|
  {
    if productIds == [] then []
    else
      var rest := NewIds(productIds[1..], existing);
      assert forall x :: x in productIds <==> x == productIds[0] || x in productIds[1..];
      var pid := productIds[0];
      if pid != "" && pid !in existing then [pid] + rest else rest
  }

  /** The new ids keep the input's order: filtering two parts is filtering the whole. */
  lemma {:induction false} NewIdsConcat(a: seq<string>, b: seq<string>, existing: set<string>)
    ensures NewIds(a + b, existing) == NewIds(a, existing) + NewIds(b, existing)
    decreases |a|
  {
    if a == [] {
      assert a + b == b;
    } else {
      assert (a + b)[0] == a[0] && (a + b)[1..] == a[1..] + b;
      NewIdsConcat(a[1..], b, existing);
    }
  }

  /** Duplicates inside one upload are not removed by the filter. */
  lemma DuplicatesInUploadKept()
    ensures NewIds(["B0X", "B0X"], {}) == ["B0X", "B0X"]
  {
    assert NewIds(["B0X"], {}) == ["B0X"] by {
      assert ["B0X"][1..] == [];
    }
    assert ["B0X", "B0X"][1..] == ["B0X"];
  }

  /** `[ProductInfo(user=user, product_list=product_list, product_id=pid) for pid in new_ids]` */
  function Build(user: int, productList: int, ids: seq<string>): (infos: seq<ProductInfo>)
    ensures |infos| == |ids|
    ensures forall i :: 0 <= i < |ids| ==> infos[i] == ProductInfo(user, productList, ids[i])
  {
    seq(|ids|, i requires 0 <= i < |ids| => ProductInfo(user, productList, ids[i]))
  }

  /** `bulk_create(infos, ignore_conflicts=True)`: a row whose key is taken is skipped. */
  function InsertIgnoring(rows: map<Key, ProductInfo>, infos: seq<ProductInfo>): map<Key, ProductInfo>
    decreases |infos|
  {
    if infos == [] then rows
    else
      var p := infos[0];
      InsertIgnoring(if KeyOf(p) in rows then rows else rows[KeyOf(p) := p], infos[1..])
  }

  function InfoKeys(infos: seq<ProductInfo>): set<Key> {
    set p | p in infos :: KeyOf(p)
  }

  lemma InfoKeysCons(infos: seq<ProductInfo>)
    requires infos != []
    ensures InfoKeys(infos) == {KeyOf(infos[0])} + InfoKeys(infos[1..])
  {
    assert infos == [infos[0]] + infos[1..];
  }

  /** After the insert the keys are the old ones and the inserted ones, nothing else. */
  lemma {:induction false} InsertIgnoringKeys(rows: map<Key, ProductInfo>, infos: seq<ProductInfo>)
    ensures InsertIgnoring(rows, infos).Keys == rows.Keys + InfoKeys(infos)
    decreases |infos|
  {
    if infos != [] {
      var p := infos[0];
      var rows1 := if KeyOf(p) in rows then rows else rows[KeyOf(p) := p];
      InsertIgnoringKeys(rows1, infos[1..]);
      InfoKeysCons(infos);
    }
  }

  /** No row that was already there changes. */
  lemma {:induction false} InsertIgnoringKeepsOld(rows: map<Key, ProductInfo>, infos: seq<ProductInfo>, k: Key)
    requires k in rows
    ensures k in InsertIgnoring(rows, infos) && InsertIgnoring(rows, infos)[k] == rows[k]
    decreases |infos|
  {
    if infos != [] {
      var p := infos[0];
      var rows1 := if KeyOf(p) in rows then rows else rows[KeyOf(p) := p];
      InsertIgnoringKeepsOld(rows1, infos[1..], k);
    }
  }

  /** Every added row is one of the inserted rows, under its own key. */
  lemma {:induction false} InsertIgnoringNew(rows: map<Key, ProductInfo>, infos: seq<ProductInfo>, k: Key)
    requires k in InsertIgnoring(rows, infos) && k !in rows
    ensures exists i :: 0 <= i < |infos| && KeyOf(infos[i]) == k && InsertIgnoring(rows, infos)[k] == infos[i]
    decreases |infos|
  {
    var p := infos[0];
    var rows1 := if KeyOf(p) in rows then rows else rows[KeyOf(p) := p];
    if k in rows1 {
      InsertIgnoringKeepsOld(rows1, infos[1..], k);
      assert KeyOf(infos[0]) == k;
    } else {
      InsertIgnoringNew(rows1, infos[1..], k);
      var i :| 0 <= i < |infos[1..]| && KeyOf(infos[1..][i]) == k && InsertIgnoring(rows1, infos[1..])[k] == infos[1..][i];
      assert infos[i + 1] == infos[1..][i];
    }
  }

  /** The upload model's product table. */
  class ProductStore {
    var rows: map<Key, ProductInfo>

    constructor (rows: map<Key, ProductInfo>)
      ensures this.rows == rows
    {
      this.rows := rows;
    }
  }

  /** `bulk_create_products`: the list and the rows built, one per new id. */
  method BulkCreateProducts(store: ProductStore, user: int, productIds: seq<string>, platform: string, productList: int)
    returns (list: int, infos: seq<ProductInfo>)
    modifies store
    ensures list == productList
    ensures infos == Build(user, productList, NewIds(productIds, ExistingIds(old(store.rows), productList)))
    ensures store.rows == InsertIgnoring(old(store.rows), infos)
  {
    var existing := ExistingIds(store.rows, productList);
    var newIds := NewIds(productIds, existing);
    infos := Build(user, productList, newIds);
    store.rows := InsertIgnoring(store.rows, infos);
    list := productList;
  }

  /**
   * What a bulk create does to the table: the list gains exactly the new
   * non-empty ids, each carrying the given user and list, and no id that
   * was already in the list is re-created.
   */
  lemma BulkCreateEffect(rows: map<Key, ProductInfo>, user: int, productIds: seq<string>, productList: int)
    ensures var infos := Build(user, productList, NewIds(productIds, ExistingIds(rows, productList)));
      var after := InsertIgnoring(rows, infos);
      && after.Keys == rows.Keys + (set id | id in productIds && id != "" && id !in ExistingIds(rows, productList) :: (productList, id))
      && (forall k :: k in rows ==> after[k] == rows[k])
      && (forall k :: k in after && k !in rows ==> after[k] == ProductInfo(user, productList, k.1))
  {
    var ids := NewIds(productIds, ExistingIds(rows, productList));
    var infos := Build(user, productList, ids);
    var after := InsertIgnoring(rows, infos);
    InsertIgnoringKeys(rows, infos);
    forall k | k in rows
      ensures after[k] == rows[k]
    {
      InsertIgnoringKeepsOld(rows, infos, k);
    }
    forall k | k in after && k !in rows
      ensures after[k] == ProductInfo(user, productList, k.1)
    {
      InsertIgnoringNew(rows, infos, k);
    }
    assert InfoKeys(infos) == (set id | id in productIds && id != "" && id !in ExistingIds(rows, productList) :: (productList, id)) by {
      forall p | p in infos
        ensures p.productId in ids && p.productList == productList
      {
        var i :| 0 <= i < |infos| && infos[i] == p;
        assert p.productId == ids[i];
      }
      forall id | id in ids
        ensures (productList, id) in InfoKeys(infos)
      {
        var i :| 0 <= i < |ids| && ids[i] == id;
        assert KeyOf(infos[i]) == (productList, id);
      }
    }
  }
}
