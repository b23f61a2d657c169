/** What a `PropertyHolder` promises its callers, stated over the store a holder
    keeps (`properties`) and proved from `Lookup` and `Displaced`. */
module HolderLaws {
  import opened Values
  import opened Properties

  /** A fresh holder answers `getProperty(k)` with `k`'s default and
      `getProperty(k, d)` with `d`, even when `d` differs from the default. */
  lemma FreshHolderAnswersFallback(p: Property, fallback: Option<Value>)
    ensures Lookup(map[], p, p.defValue) == p.defValue
    ensures Lookup(map[], p, fallback) == fallback
  {
  }

  /** Storing a non-null value of the key's class and reading it back gives that
      value, whatever fallback the reader passes. */
  lemma SetThenGet(properties: map<string, Option<Value>>, p: Property, v: Value, fallback: Option<Value>)
    requires IsInstance(p.valueClass, v)
    ensures Lookup(properties[p.key := Some(v)], p, fallback) == Some(v)
  {
  }

  /** A stored `null` reads as absent: the caller's fallback comes back. */
  lemma StoredNullReadsAsAbsent(properties: map<string, Option<Value>>, p: Property, fallback: Option<Value>)
    ensures Lookup(properties[p.key := None], p, fallback) == fallback
  {
  }

  /** A stored value of another class is tolerated: the read yields the key's own
      default, not the caller's fallback. */
  lemma MismatchYieldsKeyDefault(properties: map<string, Option<Value>>, p: Property, fallback: Option<Value>)
    requires p.key in properties && properties[p.key].Some?
    requires !IsInstance(p.valueClass, properties[p.key].value)
    ensures Lookup(properties, p, fallback) == p.defValue
  {
  }

  /** The three answers `setProperty` can give: `null` when nothing non-null was
      stored, the stored value when it has the key's class, `null` when it has
      another class. */
  lemma DisplacedCases(properties: map<string, Option<Value>>, p: Property)
    ensures p.key !in properties || properties[p.key].None? ==> Displaced(properties, p) == None
    ensures p.key in properties && properties[p.key].Some? && IsInstance(p.valueClass, properties[p.key].value) ==>
            Displaced(properties, p) == properties[p.key]
    ensures p.key in properties && properties[p.key].Some? && !IsInstance(p.valueClass, properties[p.key].value) ==>
            Displaced(properties, p) == None
  {
  }

  /** A second `setProperty` on the same key reports the value the first one stored. */
  lemma SecondSetReportsFirst(properties: map<string, Option<Value>>, p: Property, first: Option<Value>)
    requires HoldsInstance(p.valueClass, first)
    ensures Displaced(properties[p.key := first], p) == first
  {
  }

  /** A store under one key string leaves what every other key string reads and
      reports untouched. */
  lemma OtherKeysUnaffected(properties: map<string, Option<Value>>, p: Property, q: Property,
                            v: Option<Value>, fallback: Option<Value>)
    requires q.key != p.key
    ensures Lookup(properties[p.key := v], q, fallback) == Lookup(properties, q, fallback)
    ensures Displaced(properties[p.key := v], q) == Displaced(properties, q)
  {
  }

  /** Two property objects with the same key string share one slot, whatever
      their classes: a store through either is what the other reads back when the
      value is of the reader's class, and the reader's own default when it is not.
      With the same class and default the two read alike in every store. */
  lemma SameKeySharesSlot(properties: map<string, Option<Value>>, p: Property, q: Property,
                          v: Option<Value>, fallback: Option<Value>)
    requires p.key == q.key
    ensures properties[p.key := v] == properties[q.key := v]
    ensures v.None? ==> Lookup(properties[p.key := v], q, fallback) == fallback
    ensures v.Some? && IsInstance(q.valueClass, v.value) ==> Lookup(properties[p.key := v], q, fallback) == v
    ensures v.Some? && IsInstance(p.valueClass, v.value) && !IsInstance(q.valueClass, v.value) ==>
      Lookup(properties[p.key := v], q, fallback) == q.defValue
    ensures p.valueClass == q.valueClass && p.defValue == q.defValue ==>
      Lookup(properties, p, fallback) == Lookup(properties, q, fallback)
  {
  }

  /** Every non-null value stored under a registered key string has that key's class. */
  ghost predicate ConformsTo(properties: map<string, Option<Value>>, entries: map<string, Property>)
  {
    forall k :: k in properties && k in entries && properties[k].Some? ==>
      IsInstance(entries[k].valueClass, properties[k].value)
  }

  /** Storing through a registered property keeps a conforming store conforming. */
  lemma StoreKeepsConformance(properties: map<string, Option<Value>>, entries: map<string, Property>,
                              p: Property, v: Option<Value>)
    requires ConformsTo(properties, entries)
    requires p.key in entries && entries[p.key] == p
    requires HoldsInstance(p.valueClass, v)
    ensures ConformsTo(properties[p.key := v], entries)
  {
  }

  /** In a conforming store the mismatch branch of `getProperty` is never taken:
      reads return the stored value or the caller's fallback. */
  lemma ConformingStoreNeverMismatches(properties: map<string, Option<Value>>, entries: map<string, Property>,
                                       p: Property, fallback: Option<Value>)
    requires ConformsTo(properties, entries)
    requires p.key in entries && entries[p.key] == p
    ensures Lookup(properties, p, fallback) ==
            if p.key in properties && properties[p.key].Some? then properties[p.key] else fallback
  {
  }

  /** Two consecutive `setProperty` calls on one key: the second reports the value
      the first stored, and the holder then reads the second value back. */
  method SetTwice(h: PropertyHolder, p: Property, first: Option<Value>, second: Value)
    returns (reported1: Option<Value>, reported2: Option<Value>)
    requires HoldsInstance(p.valueClass, p.defValue)
    requires HoldsInstance(p.valueClass, first) && IsInstance(p.valueClass, second)
    modifies h
    ensures reported1 == Displaced(old(h.properties), p)
    ensures reported2 == first
    ensures h.GetProperty(p) == Some(second)
  {
    reported1 := h.SetProperty(p, first);
    reported2 := h.SetProperty(p, Some(second));
    SecondSetReportsFirst(old(h.properties), p, first);
  }
}
