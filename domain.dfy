/** The host application's object graph, as far as the two plugins see it. */
module Domain {
  import opened Wrappers

  /** Addresses a domain object; two identifiers are the same when both
      fields are equal (datatype equality is structural). */
  datatype Identifier = Identifier(namespace: string, key: string)

  /** Where an object sits in the hierarchy: under a parent, or at the top
      (the `'ROOT'` sentinel). */
  datatype Location = Root | Parent(parent: Identifier)

  /** A persisted record. Type-specific fields beyond these are opaque to
      both plugins and are not modelled. */
  datatype DomainObject = DomainObject(
    identifier: Identifier,
    name: string,
    objectType: string,
    composition: seq<Identifier>,
    location: Location)

  /** The host's priority levels. Their numeric values are defined by the
      host and do not appear here; only which level is chosen is modelled. */
  datatype Priority = Highest | Default | Low

  const FolderType := "folder"
}
