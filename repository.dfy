/**
 * The create/read/update/delete operations of `handlers.py` over an
 * in-memory stand-in for the `complaints` collection.
 *
 * The store's native key (an ObjectId) is a natural number handed out by a
 * counter, which makes every inserted key fresh. `ObjectId(s)`, the coercion
 * that raises on a malformed string, is the store's `parse`, and
 * `str(inserted_id)` is its `show`; both are left abstract except that a key
 * printed and parsed back is the same key. The clock is the stream of
 * readings, in whole milliseconds, passed to the operations, never earlier
 * than the latest reading the store has seen.
 */
module Repository {
  import opened Wrappers
  import opened Values
  import opened Validation

  /** The store's native key type. */
  type Key = nat

  /** A document as `find` yields it: its key (the `_id` field) and its other fields. */
  datatype Document = Document(id: Key, fields: Record)

  predicate Distinct<T(==)>(s: seq<T>) {
    forall i, j :: 0 <= i < j < |s| ==> s[i] != s[j]
  }

  /** `s` with every occurrence of `x` taken out, the rest in order. */
  function Without(s: seq<Key>, x: Key): (r: seq<Key>)
    ensures forall y :: y in r <==> y in s && y != x
    ensures Distinct(s) ==> Distinct(r)
  {
    if s == [] then []
    else if s[0] == x then Without(s[1..], x)
    else
      assert Distinct(s) ==> s[0] !in s[1..];
      [s[0]] + Without(s[1..], x)
  }

  /** The set of the sequence's elements. */
  function Elements(s: seq<Key>): set<Key> {
    set x | x in s
  }

  /** A sequence without repetitions has as many elements as its set of elements. */
  lemma {:induction false} DistinctElementsCount(s: seq<Key>)
    requires Distinct(s)
    ensures |Elements(s)| == |s|
  {
    if s != [] {
      DistinctElementsCount(s[1..]);
      assert s[0] !in s[1..];
      assert Elements(s) == Elements(s[1..]) + {s[0]};
    }
  }

  /** The record carries an `updated_at` timestamp no later than `now`. */
  predicate StampedBy(r: Record, now: int) {
    "updated_at" in r && r["updated_at"].Time? && r["updated_at"].t <= now
  }

  class ComplaintStore {
    /** `ObjectId(s)`: the key a string names, or None where the coercion raises. */
    const parse: string -> Option<Key>
    /** `str(key)`: the string form handed back to callers. */
    const show: Key -> string

    /** The stored documents by key. */
    var table: map<Key, Record>
    /** The keys in insertion order, the order a query with no filter returns them in. */
    var order: seq<Key>
    /** Every key handed out so far is below this one. */
    var nextKey: Key
    /** The latest clock reading the store has seen. */
    var now: int

    ghost predicate Valid()
      reads this
    {
      && (forall k: Key :: parse(show(k)) == Some(k))
      && (forall k :: k in table ==> k < nextKey)
      && Distinct(order)
      && (forall k :: k in order <==> k in table)
      && (forall k :: k in table ==> StampedBy(table[k], now))
    }

    constructor (parse: string -> Option<Key>, show: Key -> string, now: int)
      requires forall k: Key :: parse(show(k)) == Some(k)
      ensures Valid()
      ensures this.parse == parse && this.show == show && this.now == now
      ensures table == map[] && order == [] && nextKey == 0
    {
      this.parse := parse;
      this.show := show;
      this.now := now;
      table := map[];
      order := [];
      nextKey := 0;
    }

    /** The string is a well-formed identifier: `ObjectId(id)` does not raise. */
    predicate ValidId(id: string) {
      parse(id).Some?
    }

    /** The identifier is well formed and names a stored document. */
    predicate Found(id: string)
      reads this
    {
      parse(id).Some? && parse(id).value in table
    }

    /**
     * `get_complaint`: the stored document, or the empty record. A malformed
     * identifier and an absent one give the same answer, and a stored
     * document is never empty, so the empty record means "not found".
     */
    function Get(id: string): (r: Record)
      reads this
      ensures Found(id) ==> r == table[parse(id).value]
      ensures !ValidId(id) ==> r == map[]
      ensures ValidId(id) && parse(id).value !in table ==> r == map[]
      ensures Valid() ==> (r == map[] <==> !Found(id))
    {
      match parse(id)
      case None => map[]
      case Some(k) => if k in table then table[k] else map[]
    }

    /**
     * `get_all_complaints()` with no query (None stands for `{}`): every
     * stored document exactly once, in insertion order.
     */
    function ListAll(): (docs: seq<Document>)
      reads this
      requires Valid()
      ensures |docs| == |table|
      ensures forall i :: 0 <= i < |docs| ==> docs[i].id in table && docs[i].fields == table[docs[i].id]
      ensures forall i, j :: 0 <= i < j < |docs| ==> docs[i].id != docs[j].id
      ensures forall k :: k in table ==> exists i :: 0 <= i < |docs| && docs[i].id == k
    {
      var keys, t := order, table;
      var docs := seq(|keys|, i requires 0 <= i < |keys| && keys[i] in t => Document(keys[i], t[keys[i]]));
      assert forall i :: 0 <= i < |keys| ==> docs[i].id == keys[i];
      DistinctElementsCount(keys);
      assert t.Keys == Elements(keys);
      docs
    }

    /**
     * `create_complaint`: validate, stamp `created_at` and `updated_at` on the
     * caller's dictionary from two successive clock readings, insert it under
     * a fresh key and return that key's string form. A validation failure
     * changes nothing, neither the store nor the caller's dictionary.
     */
    method Create(data: Dict, createdAt: int, updatedAt: int) returns (r: Result<string, FieldError>)
      requires Valid()
      requires now <= createdAt <= updatedAt
      modifies this, data
      ensures Valid()
      ensures FirstError(old(data.entries), Schema) != None ==>
                && r == Err(FirstError(old(data.entries), Schema).value)
                && unchanged(this) && unchanged(data)
      ensures FirstError(old(data.entries), Schema) == None ==>
                && r.Ok? && parse(r.value) == Some(old(nextKey)) && old(nextKey) !in old(table)
                && data.entries == old(data.entries)["created_at" := Time(createdAt)]["updated_at" := Time(updatedAt)]
                && table == old(table)[old(nextKey) := data.entries]
                && order == old(order) + [old(nextKey)]
                && nextKey == old(nextKey) + 1
                && now == updatedAt
                && Get(r.value) == data.entries
    {
      var failure := Validate(data.entries);
      if failure.Some? {
        return Err(failure.value);
      }
      data.entries := data.entries["created_at" := Time(createdAt)];
      data.entries := data.entries["updated_at" := Time(updatedAt)];
      now := updatedAt;
      var key := nextKey;
      table := table[key := data.entries];
      order := order + [key];
      nextKey := nextKey + 1;
      r := Ok(show(key));
    }

    /**
     * `update_complaint`: stamp `updated_at` on the caller's dictionary (before
     * the identifier is looked at, so always), then set its fields on the
     * document the identifier names. The result is the store's report of
     * whether the document changed; a malformed or absent identifier gives
     * false and leaves the store as it was.
     */
    method Update(id: string, data: Dict, stampedAt: int) returns (ok: bool)
      requires Valid()
      requires now <= stampedAt
      modifies this, data
      ensures Valid()
      ensures data.entries == old(data.entries)["updated_at" := Time(stampedAt)]
      ensures now == stampedAt && order == old(order) && nextKey == old(nextKey)
      ensures !old(Found(id)) ==> !ok && table == old(table)
      ensures old(Found(id)) ==>
                && table == old(table)[parse(id).value := old(Get(id)) + data.entries]
                && ok == (Get(id) != old(Get(id)))
      ensures old(Found(id)) && old(now) < stampedAt ==> ok
      ensures old(Found(id)) ==>
                && StampedBy(old(Get(id)), stampedAt)
                && "updated_at" in Get(id) && Get(id)["updated_at"] == Time(stampedAt)
      ensures old(Found(id)) ==>
                && (forall f :: f in data.entries ==> f in Get(id) && Get(id)[f] == data.entries[f])
                && (forall f :: f in old(Get(id)) && f !in data.entries ==> f in Get(id) && Get(id)[f] == old(Get(id))[f])
    {
      data.entries := data.entries["updated_at" := Time(stampedAt)];
      now := stampedAt;
      match parse(id) {
        case None =>
          return false;
        case Some(k) =>
          if k !in table {
            return false;
          }
          var merged := table[k] + data.entries;
          ok := merged != table[k];
          table := table[k := merged];
      }
    }

    /**
     * `delete_complaint`: remove the document the identifier names and report
     * whether one was removed; a malformed or absent identifier gives false
     * and leaves the store as it was.
     */
    method Delete(id: string) returns (ok: bool)
      requires Valid()
      modifies this
      ensures Valid()
      ensures ok == old(Found(id))
      ensures ok ==> table == old(table) - {parse(id).value} && order == Without(old(order), parse(id).value)
      ensures !ok ==> table == old(table) && order == old(order)
      ensures nextKey == old(nextKey) && now == old(now)
      ensures Get(id) == map[]
    {
      match parse(id) {
        case None =>
          return false;
        case Some(k) =>
          if k !in table {
            return false;
          }
          table := table - {k};
          order := Without(order, k);
          ok := true;
      }
    }
  }
}
