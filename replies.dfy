/** What a command handler sends back to the chat: a plain message, or a
    message with an inline keyboard laid out as a grid of cells. */
module Replies {

  datatype Reply =
    | Message(text: string)
    | Keyboard(text: string, cells: seq<string>)

  /** The reply when no fresh snapshot exists. */
  const NotFoundText: string := "Data not found"

  /** The keyboard grid has this many columns; every table row fills one line. */
  const Columns: nat := 4

  /** The first row of both fee tables. */
  const TableHeader: seq<string> := ["-", "Price", "Wait", "USD"]
}
