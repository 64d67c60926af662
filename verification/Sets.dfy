/** Facts about walking a set one element at a time, as a Go map is ranged over. */
module Sets {

  lemma TakeOne<T>(all: set<T>, left: set<T>, x: T)
    requires x in left && left <= all
    ensures all - left + {x} == all - (left - {x})
    ensures x !in all - left
  {
  }

  lemma TakeOneBeside<T>(base: set<T>, all: set<T>, left: set<T>, x: T)
    requires x in left && left <= all
    ensures base + (all - (left - {x})) == base + (all - left) + {x}
  {
  }
}
