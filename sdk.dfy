/**
 * The shapes of what the integration platform's SDK returns, as the core
 * reads them. Each variant stands for one shape the core tells apart by
 * attribute tests; which SDK generation produced it is not modelled.
 */
module Sdk {
  import opened Values
  import opened Errors

  /** One entry of a tool catalog. */
  datatype Entry =
    | DictEntry(fields: map<string, Value>)
      /**
       * An object: its `name` attribute if it has one, the dictionary the
       * first of `model_dump()`, `to_dict()`, `__dict__` it offers gives,
       * and `str(tool)`.
       */
    | ObjectEntry(nameAttr: Option<Value>, asDict: Option<map<string, Value>>, text: string)

  /**
   * A catalog response: an object that may carry `items`, `data` or be
   * iterable, or a plain list.
   */
  datatype CatalogResponse =
    | ResponseObject(items: Option<seq<Entry>>, data: Option<seq<Entry>>, iterated: Option<seq<Entry>>)
    | EntryList(entries: seq<Entry>)

  /**
   * A connected account: its id, `toolkit.slug` when the toolkit has one,
   * and the `appName` / `app_name` attributes ("" when absent).
   */
  datatype Account = Account(id: string, toolkitSlug: Option<string>, appName: string, appNameSnake: string)

  /** What listing the connected accounts gave: a list, one bare account, nothing/None, or an exception. */
  datatype AccountsLookup =
    | AccountList(accounts: seq<Account>)
    | SingleAccount(account: Account)
    | NoAccounts
    | LookupRaised(error: Exc)

  /** The accounts a successful lookup yields; a bare account is wrapped in a list. */
  function AccountsOf(lookup: AccountsLookup): seq<Account> {
    match lookup
    case AccountList(accounts) => accounts
    case SingleAccount(account) => [account]
    case NoAccounts => []
    case LookupRaised(_) => []
  }

  /** A registered integration: its id and `appName` ("" when absent). */
  datatype Integration = Integration(id: string, appName: string)

  /** A pending OAuth connection request and its `redirectUrl` attribute. */
  datatype ConnectionRequest = ConnectionRequest(redirectUrl: Option<string>)

  /** What executing a tool returned: a dictionary, or anything else, known by `str(result)`. */
  datatype ExecResult = DictResult(fields: map<string, Value>) | OtherResult(text: string)
}
