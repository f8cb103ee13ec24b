/** The module's own minimal `Set`, built on a hash whose keys are the elements. */
module HashSets {

  class HashSet<T(==)> {
    /** The keys of the hash. */
    var values: set<T>

    constructor ()
      ensures values == {}
    {
      values := {};
    }

    /** `<<`: afterwards `value` is included and nothing else changed. */
    method Add(value: T)
      modifies this
      ensures values == old(values) + {value}
    {
      values := values + {value};
    }

    /** `include?` */
    predicate Contains(value: T)
      reads this
    {
      value in values
    }

    /** `empty?` */
    predicate IsEmpty()
      reads this
    {
      values == {}
    }

    /** `clear` */
    method Clear()
      modifies this
      ensures values == {}
    {
      values := {};
    }

    /**
     * `merge`: adds each element of `other`, one at a time; the elements are
     * taken before the first one is added, so merging a set into itself is fine.
     */
    method Merge(other: HashSet<T>)
      modifies this
      ensures values == old(values) + old(other.values)
    {
      var keys := other.values;
      var rest := keys;
      while rest != {}
        invariant rest <= keys
        invariant values == old(values) + (keys - rest)
        decreases rest
      {
        var element :| element in rest;
        Add(element);
        rest := rest - {element};
      }
    }
  }
}
