/**
 * The slug normaliser (`slugify` from the python-slugify package) is an
 * external library. It is kept uninterpreted: the only thing the model
 * relies on is that a slug never contains a path separator.
 */
module Slugs {

  /** Texts that can serve as one path component. */
  type Slug = s: string | '/' !in s witness ""

  /** `slugify`; nothing is known about it beyond its result type. */
  const Slugify: string -> Slug
}
