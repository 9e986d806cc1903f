/**
  A MongoDB collection of crawled entities, as the crawler uses it: `insert_one` (which refuses a
  second document with the same `_id`) and `extend_item_field_in_db`, which appends to a list field
  of an existing document.
 */
module Store {
  import opened Wrappers
  import opened Values

  /** The key of a stored document: its `_id`, or the ObjectId MongoDB assigns to a document without one. */
  datatype DocId = Given(v: Value) | Assigned(n: nat)

  /** The documents by key, the order they were inserted in, and how many ObjectIds were minted. */
  datatype Collection = Collection(docs: map<DocId, Fields>, order: seq<DocId>, minted: nat) {
    ghost predicate Valid() {
      && (forall i, j :: 0 <= i < j < |order| ==> order[i] != order[j])
      && (forall id :: id in docs <==> id in order)
      && (forall id :: id in docs && id.Assigned? ==> id.n < minted)
    }
  }

  const EmptyCollection := Collection(map[], [], 0)

  /** The key `insert_one` stores `item` under. */
  function KeyOf(c: Collection, item: Fields): DocId {
    if "_id" in item then Given(item["_id"]) else Assigned(c.minted)
  }

  /** `insert_one(item)`: the collection afterwards and whether the document went in (a taken `_id` raises DuplicateKeyError). */
  function Insert(c: Collection, item: Fields): (Collection, bool) {
    var id := KeyOf(c, item);
    if id in c.docs then (c, false)
    else (Collection(c.docs[id := item], c.order + [id], if "_id" in item then c.minted else c.minted + 1), true)
  }

  /** The list stored in `field` of document `id`, empty when there is none. */
  function FieldList(c: Collection, id: Value, field: string): seq<Value> {
    var key := Given(id);
    if key in c.docs && field in c.docs[key] && c.docs[key][field].List? then c.docs[key][field].items else []
  }

  /** `$push` with `$each` fails on a field that holds something other than a list. */
  predicate CanExtend(c: Collection, id: Value, field: string) {
    var key := Given(id);
    key in c.docs && (field !in c.docs[key] || c.docs[key][field].List?)
  }

  /** `extend_item_field_in_db(id, field, values)`: append `values` to the list `field` of document `id`; no upsert. */
  function Extend(c: Collection, id: Value, field: string, values: seq<Value>): Collection {
    if !CanExtend(c, id, field) then c
    else
      var key := Given(id);
      c.(docs := c.docs[key := c.docs[key][field := List(FieldList(c, id, field) + values)]])
  }

  /** `find()`: every stored document, in insertion order. */
  function Find(c: Collection): (ds: seq<Fields>)
    requires c.Valid()
    ensures |ds| == |c.order|
    ensures forall k :: 0 <= k < |c.order| ==> ds[k] == c.docs[c.order[k]]
  {
    seq(|c.order|, k requires 0 <= k < |c.order| && c.order[k] in c.docs => c.docs[c.order[k]])
  }

  // ---------------------------------------------------------------- insert_one

  /**
    Creation is insert-only: a new key gets exactly the item, an existing document is left as it
    was (first writer wins), and no other document changes.
   */
  lemma {:induction false} InsertProps(c: Collection, item: Fields)
    requires c.Valid()
    ensures Insert(c, item).0.Valid()
    ensures Insert(c, item).1 <==> KeyOf(c, item) !in c.docs
    ensures Insert(c, item).0.docs.Keys == c.docs.Keys + {KeyOf(c, item)}
    ensures Insert(c, item).0.docs[KeyOf(c, item)] == if Insert(c, item).1 then item else c.docs[KeyOf(c, item)]
    ensures forall k :: k in c.docs ==> Insert(c, item).0.docs[k] == c.docs[k]
    ensures c.order <= Insert(c, item).0.order
  {
    var id := KeyOf(c, item);
    if id !in c.docs {
      var c' := Insert(c, item).0;
      forall i, j | 0 <= i < j < |c'.order| ensures c'.order[i] != c'.order[j] {
        if j == |c.order| {
          assert c'.order[i] == c.order[i];
        }
      }
      forall x ensures x in c'.docs <==> x in c'.order {
        assert x in c'.order <==> x in c.order || x == id;
      }
    }
  }

  /** Of two items with one `_id`, the first stays stored and the second is refused. */
  lemma FirstWriterWins(c: Collection, a: Fields, b: Fields)
    requires c.Valid() && "_id" in a && "_id" in b && a["_id"] == b["_id"]
    requires Given(a["_id"]) !in c.docs
    ensures Insert(c, a).1 && !Insert(Insert(c, a).0, b).1
    ensures Insert(Insert(c, a).0, b).0 == Insert(c, a).0
    ensures Insert(c, a).0.docs[Given(a["_id"])] == a
  {
  }

  // ---------------------------------------------------------------- extend_item_field_in_db

  /**
    Appending keeps every key and the insertion order, puts `values` after what the field held,
    and changes no other field and no other document.
   */
  lemma ExtendProps(c: Collection, id: Value, field: string, values: seq<Value>)
    requires c.Valid()
    ensures Extend(c, id, field, values).Valid()
    ensures Extend(c, id, field, values).docs.Keys == c.docs.Keys
    ensures Extend(c, id, field, values).order == c.order
    ensures FieldList(Extend(c, id, field, values), id, field)
      == if CanExtend(c, id, field) then FieldList(c, id, field) + values else FieldList(c, id, field)
    ensures forall k :: k in c.docs && k != Given(id) ==> Extend(c, id, field, values).docs[k] == c.docs[k]
    ensures forall f :: f != field && Given(id) in c.docs ==>
      (f in c.docs[Given(id)] <==> f in Extend(c, id, field, values).docs[Given(id)])
      && (f in c.docs[Given(id)] ==> Extend(c, id, field, values).docs[Given(id)][f] == c.docs[Given(id)][f])
  {
  }

  /** A page delivered twice is appended twice: extending is not idempotent. */
  lemma {:induction false} ExtendTwiceDuplicates(c: Collection, id: Value, field: string, values: seq<Value>)
    requires CanExtend(c, id, field)
    ensures CanExtend(Extend(c, id, field, values), id, field)
    ensures FieldList(Extend(Extend(c, id, field, values), id, field, values), id, field)
      == FieldList(c, id, field) + values + values
  {
    var c1 := Extend(c, id, field, values);
    assert FieldList(c1, id, field) == FieldList(c, id, field) + values;
  }

  /** Appends to different fields commute. */
  lemma {:induction false} ExtendFieldsCommute(c: Collection, id: Value, f1: string, f2: string, a: seq<Value>, b: seq<Value>)
    requires f1 != f2
    ensures Extend(Extend(c, id, f1, a), id, f2, b) == Extend(Extend(c, id, f2, b), id, f1, a)
  {
    var key := Given(id);
    if key in c.docs {
      var d := c.docs[key];
      var c1 := Extend(c, id, f1, a);
      var c2 := Extend(c, id, f2, b);
      assert CanExtend(c1, id, f2) == CanExtend(c, id, f2);
      assert CanExtend(c2, id, f1) == CanExtend(c, id, f1);
      assert FieldList(c1, id, f2) == FieldList(c, id, f2);
      assert FieldList(c2, id, f1) == FieldList(c, id, f1);
      if CanExtend(c, id, f1) && CanExtend(c, id, f2) {
        var x := List(FieldList(c, id, f1) + a);
        var y := List(FieldList(c, id, f2) + b);
        assert d[f1 := x][f2 := y] == d[f2 := y][f1 := x];
      }
    }
  }

  /** Appends to one field in either order hold the same entries, in different orders. */
  lemma {:induction false} ExtendSameFieldOrder(c: Collection, id: Value, field: string, a: seq<Value>, b: seq<Value>)
    requires CanExtend(c, id, field)
    ensures FieldList(Extend(Extend(c, id, field, a), id, field, b), id, field) == FieldList(c, id, field) + a + b
    ensures multiset(FieldList(Extend(Extend(c, id, field, a), id, field, b), id, field))
      == multiset(FieldList(Extend(Extend(c, id, field, b), id, field, a), id, field))
  {
    var old_ := FieldList(c, id, field);
    ExtendTwiceStep(c, id, field, a, b);
    ExtendTwiceStep(c, id, field, b, a);
    assert multiset(old_ + a + b) == multiset(old_) + multiset(a) + multiset(b);
    assert multiset(old_ + b + a) == multiset(old_) + multiset(b) + multiset(a);
  }

  lemma ExtendTwiceStep(c: Collection, id: Value, field: string, a: seq<Value>, b: seq<Value>)
    requires CanExtend(c, id, field)
    ensures FieldList(Extend(Extend(c, id, field, a), id, field, b), id, field) == FieldList(c, id, field) + a + b
  {
    assert FieldList(Extend(c, id, field, a), id, field) == FieldList(c, id, field) + a;
  }

  // ---------------------------------------------------------------- the collection object

  /** A MongoDB collection the crawler writes. */
  class MongoCollection {
    var contents: Collection

    ghost predicate Valid()
      reads this
    {
      contents.Valid()
    }

    constructor ()
      ensures Valid() && contents == EmptyCollection
    {
      contents := EmptyCollection;
    }

    /** `insert_one(item)`, its DuplicateKeyError turned into `inserted == false`. */
    method InsertOne(item: Fields) returns (inserted: bool)
      requires Valid()
      modifies this
      ensures Valid()
      ensures (contents, inserted) == Insert(old(contents), item)
      ensures inserted <==> KeyOf(old(contents), item) !in old(contents).docs
      ensures forall k :: k in old(contents).docs ==> contents.docs[k] == old(contents).docs[k]
    {
      InsertProps(contents, item);
      var id := KeyOf(contents, item);
      if id in contents.docs {
        inserted := false;
      } else {
        var minted := if "_id" in item then contents.minted else contents.minted + 1;
        contents := Collection(contents.docs[id := item], contents.order + [id], minted);
        inserted := true;
      }
    }

    /** `extend_item_field_in_db(id, field, values)`. */
    method ExtendField(id: Value, field: string, values: seq<Value>)
      requires Valid()
      modifies this
      ensures Valid()
      ensures contents == Extend(old(contents), id, field, values)
      ensures FieldList(contents, id, field)
        == if CanExtend(old(contents), id, field) then FieldList(old(contents), id, field) + values
           else FieldList(old(contents), id, field)
    {
      ExtendProps(contents, id, field, values);
      var key := Given(id);
      if key in contents.docs {
        var d := contents.docs[key];
        if field !in d || d[field].List? {
          var before := if field in d then d[field].items else [];
          contents := contents.(docs := contents.docs[key := d[field := List(before + values)]]);
        }
      }
    }
  }
}
