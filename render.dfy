/** What a route guard hands back to the router. */
module Render {

  const LoadingText := "Loading..."

  /** A placeholder element, a `<Navigate to=...>`, or the wrapped children. */
  datatype Render = Placeholder(text: string) | Redirect(to: string) | Children
}
