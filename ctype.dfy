/** The character class the input checks use: C's `isalpha` in the default
    "C" locale. */
module CType {

  predicate IsAlpha(c: char)
  {
    ('A' <= c <= 'Z') || ('a' <= c <= 'z')
  }
}
