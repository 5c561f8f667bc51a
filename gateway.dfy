/** The remote data gateway as the pages see it: every call either fails or
    returns data that may be null. Nothing here talks to a network; the pages'
    methods take these values as inputs. */
module Gateway {

  datatype Option<+T> = None | Some(value: T)

  /** The `{ data, error }` pair of a query: an error, or data that may be null. */
  datatype Query<+T> = Failed | Returned(data: Option<T>)

  /** `data && data.length > 0`: a non-null, non-empty list of rows. Its
      negation is the `!data?.length` test: the data is null or empty. */
  function HasRows<T>(data: Option<seq<T>>): (r: bool)
    ensures r <==> data != None && data != Some([])
  {
    data.Some? && |data.value| > 0
  }

  /** Where a page sends a visitor who is not signed in. */
  const IntroPath: string := "/intro"
}
