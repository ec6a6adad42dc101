/** Small definitions shared by the page components. */
module Page {
  /** The widest viewport, in CSS pixels, that counts as mobile or tablet: the intro is
      skipped and the showcase auto-plays instead of following the scroll. */
  const CompactMaxWidth: int := 1024

  predicate IsCompact(innerWidth: int)
  {
    innerWidth <= CompactMaxWidth
  }

  datatype Option<T> = None | Some(value: T)
}
