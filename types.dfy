/** The client-side shape of an inventory item (frontend/src/types/index.ts). */
module Types {
  import opened Wrappers

  /** One item as the server returns it. `description` is optional; the two
      timestamps are ISO-8601 strings that the client never interprets. */
  datatype Item = Item(
    id: int,
    name: string,
    description: Option<string>,
    price: real,
    createdAt: string,
    updatedAt: string)
}
