/** The server and browser records the client reads, holding only the fields
    the code looks at. */
module Records {

  /** A user account as `/auth/profile` and `/admin/users` return it
      (`_id`, `name`, `email`, `status`). */
  datatype User = User(id: string, name: string, email: string, status: string)

  /** A browser `File` handed over by an input, a drop zone or a drag event
      (`name`, `type`). */
  datatype BrowserFile = BrowserFile(name: string, mimeType: string)

  /** An uploaded file as the history endpoint lists it (`_id`, `originalName`). */
  datatype FileRecord = FileRecord(id: string, originalName: string)
}
