/** Values shared by the server and the client: the row type of the `jokes`
    table and an optional value. */
module Jokes {

  /** A value that may be absent (`null` or `undefined` in the source). */
  datatype Option<+T> = None | Some(value: T)

  /** One row of the `jokes` table. The store defines the schema; the client
      reads `title` and `body`, and both tiers pass rows through unchanged. */
  datatype Joke = Joke(id: int, title: string, body: string)
}
