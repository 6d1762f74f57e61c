/** What a key-value store may do to one write. */
module StoreModel {
  /** The write may take effect or not, and may report an error or not, in any combination. */
  datatype StoreOutcome = StoreOutcome(commits: bool, throws: bool)
}
