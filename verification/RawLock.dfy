/** What a reader/writer lock is to those who use it: who is in, and how that may change. */
module RawLock {
  datatype Raw<T> = Raw(readers: set<T>, writers: set<T>)

  /** One thread enters or leaves for reading or for writing, or goes from writing to reading; or nothing happens. */
  predicate Step<T(==)>(a: Raw<T>, b: Raw<T>, t: T) {
    || b == a
    || (a.writers == {} && t !in a.readers && b == a.(readers := a.readers + {t}))
    || (t in a.readers && b == a.(readers := a.readers - {t}))
    || (a == Raw({}, {}) && b == Raw({}, {t}))
    || (a == Raw({}, {t}) && b == Raw({}, {}))
    || (a == Raw({}, {t}) && b == Raw({t}, {}))
  }
}
