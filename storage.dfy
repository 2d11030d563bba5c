/**
 * The browser's local key-value store as the site uses it. Every value is
 * written with `JSON.stringify` and read back with `JSON.parse`; that round
 * trip is taken to be the identity, so an entry holds either a plain text,
 * a product list or a list of form submissions.
 */
module Storage {
  import opened Wrappers

  /** A catalogue product as the admin pages store it. */
  datatype Product = Product(id: int, name: string, category: string, status: string)

  /** One record of a submission log, one constructor per form. */
  datatype Submission =
    | Lead(name: string, email: string, phone: string, country: string, interest: string, timestamp: string)
    | ContactMessage(name: string, email: string, message: string, timestamp: string)
    | QuoteRequest(productName: string, companyName: string, email: string, phone: string,
                   quantity: string, timestamp: string)

  datatype Entry =
    | Text(text: string)
    | ProductList(products: seq<Product>)
    | SubmissionList(submissions: seq<Submission>)

  type Items = map<string, Entry>

  /**
   * `localStorage.getItem(key)` is truthy: the key is stored and its
   * serialised form is not the empty string (a serialised list never is).
   */
  predicate Present(items: Items, key: string)
  {
    key in items && items[key] != Text("")
  }

  /** `JSON.parse(localStorage.getItem(key)) || []` for a product list. */
  function ProductsAt(items: Items, key: string): seq<Product>
  {
    if key in items && items[key].ProductList? then items[key].products else []
  }

  /** `JSON.parse(localStorage.getItem(key)) || []` for a submission log. */
  function SubmissionsAt(items: Items, key: string): seq<Submission>
  {
    if key in items && items[key].SubmissionList? then items[key].submissions else []
  }

  /** `localStorage.getItem(key)` for a plain text entry; `None` is `null`. */
  function TextAt(items: Items, key: string): Option<string>
  {
    if key in items && items[key].Text? then Some(items[key].text) else None
  }

  /** The store object itself, shared by every script of a page. */
  class LocalStorage {
    var items: Items

    constructor (initial: Items)
      ensures items == initial
    {
      items := initial;
    }

    /** `localStorage.setItem(key, value)` */
    method SetItem(key: string, value: Entry)
      modifies this
      ensures items == old(items)[key := value]
    {
      items := items[key := value];
    }

    /** `localStorage.removeItem(key)` */
    method RemoveItem(key: string)
      modifies this
      ensures items == old(items) - {key}
    {
      items := items - {key};
    }
  }
}
