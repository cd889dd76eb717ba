/**
 * Identities between concatenations of short sequence displays and the display they
 * spell out. The end-to-end lemmas about the engine use them on token lists and
 * stacks; stating them once, generically, keeps those proofs cheap.
 */
module Displays {
  // ---------------------------------------------------------------------------
  // One element appended

  lemma Snoc1<T>(x: T, y: T)
    ensures [x] + [y] == [x, y]
  {
  }

  lemma Snoc2<T>(x: T, y: T, z: T)
    ensures [x, y] + [z] == [x, y, z]
  {
  }

  lemma Snoc3<T>(x: T, y: T, z: T, w: T)
    ensures [x, y, z] + [w] == [x, y, z, w]
  {
  }

  lemma Snoc4<T>(x: T, y: T, z: T, w: T, v: T)
    ensures [x, y, z, w] + [v] == [x, y, z, w, v]
  {
  }

  lemma Snoc6<T>(x: T, y: T, z: T, w: T, v: T, u: T, t: T)
    ensures [x, y, z, w, v, u] + [t] == [x, y, z, w, v, u, t]
  {
  }

  // ---------------------------------------------------------------------------
  // One element prepended

  lemma Cons2<T>(x: T, y: T, z: T)
    ensures [x] + [y, z] == [x, y, z]
  {
  }

  lemma Cons4<T>(x: T, y: T, z: T, w: T, v: T)
    ensures [x] + [y, z, w, v] == [x, y, z, w, v]
  {
  }

  // ---------------------------------------------------------------------------
  // Two displays joined

  lemma Join2<T>(x: T, y: T, z: T, w: T)
    ensures [x, y] + [z, w] == [x, y, z, w]
  {
  }
}
