/** What a route middleware answers for a request. */
module Http {
  /** `NextResponse.next()` or `NextResponse.redirect(new URL(location, request.url))`. */
  datatype Response = Next | Redirect(location: string)
}
