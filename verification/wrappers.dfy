/** The optional value used for lookups that can fail (a follower count that is
    not available, an about-page scrape whose subprocess failed). */
module Wrappers {

  datatype Option<+T> = None | Some(value: T)
}
