/** Identity of property keys and the uniqueness the registry keeps. */
module KeyLaws {
  import opened Values
  import opened Properties

  /** `equals` is an equivalence relation on properties. */
  lemma EqualsIsEquivalence(a: Property, b: Property, c: Property)
    ensures a.Equals(a)
    ensures a.Equals(b) ==> b.Equals(a)
    ensures a.Equals(b) && b.Equals(c) ==> a.Equals(c)
  {
  }

  /** `equals` holds exactly when the key strings are equal; class and default
      take no part. */
  lemma EqualsIffSameKey(a: Property, b: Property)
    ensures a.Equals(b) <==> a.key == b.key
  {
  }

  /** `equals` is never true of `null` or of an object that is not a property. */
  lemma EqualsOnlyProperties(a: Property, obj: object?)
    requires obj == null || !(obj is Property)
    ensures !a.Equals(obj)
  {
  }

  /** `hashCode` agrees with `equals`. */
  lemma EqualKeysHashAlike(a: Property, b: Property)
    requires a.Equals(b)
    ensures a.HashCode() == b.HashCode()
  {
  }

  /** Growth accumulates: a registry reached by any number of definitions
      still holds every entry it started with. */
  lemma ExtendsTransitive(a: map<string, Property>, b: map<string, Property>, c: map<string, Property>)
    requires Extends(a, b) && Extends(b, c)
    ensures Extends(a, c)
  {
  }

  /** No two entries of a registry share a key string, so within one registry
      `equals` coincides with object identity. */
  lemma RegisteredEqualsIsIdentity(registry: Registry, a: Property, b: Property)
    requires registry.Valid()
    requires a in registry.entries.Values && b in registry.entries.Values
    ensures a.Equals(b) <==> a == b
  {
    var ka :| ka in registry.entries && registry.entries[ka] == a;
    var kb :| kb in registry.entries && registry.entries[kb] == b;
    assert ka == a.key && kb == b.key;
  }

  /** `"NUMBER".hashCode()` as the JVM computes it, with wrap-around. */
  lemma NumberKeyHash()
    ensures StringHashCode("NUMBER") == -1981034679
  {
    assert "NUMBER"[..5] == "NUMBE" && "NUMBE"[..4] == "NUMB" && "NUMB"[..3] == "NUM";
    assert "NUM"[..2] == "NU" && "NU"[..1] == "N" && "N"[..0] == "";
    assert StringHashCode("N") == 78;
    assert StringHashCode("NU") == 2503;
    assert StringHashCode("NUM") == 77670;
    assert StringHashCode("NUMB") == 2407836;
    assert StringHashCode("NUMBE") == 74642985;
  }
}
